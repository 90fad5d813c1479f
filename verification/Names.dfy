/** Derivation of every database object name and of every generated secret. */
module Names {
  import opened Wrappers

  const MAX_IDENTIFIER := 63

  /** The database objects of one service instance. */
  datatype Names = Names(database: string, groupRole: string, tablespace: string)

  /** Library functions the derivation rests on: Unicode lower-casing of one character, and the
      first twelve hexadecimal digits of a SHA-256 digest. */
  datatype Library = Library(lower: char -> char, hash: string -> string)

  predicate IsLetter(c: char) { 'a' <= c <= 'z' }

  predicate IsDigit(c: char) { '0' <= c <= '9' }

  predicate InAlphabet(c: char) { IsLetter(c) || IsDigit(c) || c == '_' }

  predicate OverAlphabet(s: string) { forall i | 0 <= i < |s| :: InAlphabet(s[i]) }

  /** `[a-z][a-z0-9_]*`, at most 63 characters. */
  predicate IsIdentifier(s: string) { 0 < |s| <= MAX_IDENTIFIER && IsLetter(s[0]) && OverAlphabet(s) }

  ghost predicate Lawful(lib: Library)
  {
    && (forall c | InAlphabet(c) :: lib.lower(c) == c)
    && (forall id :: |lib.hash(id)| == 12 && OverAlphabet(lib.hash(id)))
  }

  /** The prefixes the configuration accepts: `[a-z][a-z0-9_]{0,29}`. */
  predicate AcceptedPrefix(p: string) { 0 < |p| <= 30 && IsLetter(p[0]) && OverAlphabet(p) }

  function Clean(lib: Library, name: string): string
  {
    if name == [] then []
    else (if InAlphabet(lib.lower(name[0])) then [lib.lower(name[0])] else []) + Clean(lib, name[1..])
  }

  function Sanitize(lib: Library, name: string, maxLen: nat): string
  {
    var cleaned := Clean(lib, name);
    if |cleaned| > maxLen then cleaned[..maxLen] else cleaned
  }

  function NamesFor(lib: Library, instanceId: string, prefix: string, customName: string): Names
    requires AcceptedPrefix(prefix)
  {
    var name := Sanitize(lib, customName, MAX_IDENTIFIER - |prefix| - 5);
    var base := prefix + "_" + (if name != "" then name else lib.hash(instanceId));
    Names(base, base + "_grp", base + "_ts")
  }

  function UserFor(lib: Library, bindingId: string, prefix: string, customName: string): string
    requires AcceptedPrefix(prefix)
  {
    var name := Sanitize(lib, customName, MAX_IDENTIFIER - |prefix| - 2);
    prefix + "u_" + (if name != "" then name else lib.hash(bindingId))
  }

  lemma {:induction false} CleanIsOverAlphabet(lib: Library, name: string)
    ensures OverAlphabet(Clean(lib, name))
  {
    if name != [] {
      CleanIsOverAlphabet(lib, name[1..]);
    }
  }

  lemma {:induction false} CleanKeepsClean(lib: Library, s: string)
    requires Lawful(lib) && OverAlphabet(s)
    ensures Clean(lib, s) == s
  {
    if s != [] {
      CleanKeepsClean(lib, s[1..]);
    }
  }

  /** Sanitising twice is sanitising once, and a sanitised name derives the same objects. */
  lemma SanitizeIdempotent(lib: Library, name: string, maxLen: nat)
    requires Lawful(lib)
    ensures Sanitize(lib, Sanitize(lib, name, maxLen), maxLen) == Sanitize(lib, name, maxLen)
    ensures OverAlphabet(Sanitize(lib, name, maxLen)) && |Sanitize(lib, name, maxLen)| <= maxLen
  {
    CleanIsOverAlphabet(lib, name);
    CleanKeepsClean(lib, Sanitize(lib, name, maxLen));
  }

  lemma DerivedNamesAreIdentifiers(lib: Library, prefix: string, id: string, customName: string)
    requires Lawful(lib) && AcceptedPrefix(prefix)
    ensures var n := NamesFor(lib, id, prefix, customName);
      IsIdentifier(n.database) && IsIdentifier(n.groupRole) && IsIdentifier(n.tablespace)
    ensures IsIdentifier(UserFor(lib, id, prefix, customName))
  {
    SanitizeIdempotent(lib, customName, MAX_IDENTIFIER - |prefix| - 5);
    SanitizeIdempotent(lib, customName, MAX_IDENTIFIER - |prefix| - 2);
  }

  // ------------------------------------------------- which name is derived

  /** An instance's objects and a binding's user under this base name. */
  predicate IsNamed(lib: Library, id: string, prefix: string, name: string, base: string, userBase: string)
    requires AcceptedPrefix(prefix)
  {
    && NamesFor(lib, id, prefix, name) ==
         Names(prefix + "_" + base, prefix + "_" + base + "_grp", prefix + "_" + base + "_ts")
    && UserFor(lib, id, prefix, name) == prefix + "u_" + userBase
  }

  /** A name that is an identifier's end already is used as it is, cut to what fits behind the prefix. */
  lemma CustomNameIsUsed(lib: Library, id: string, prefix: string, name: string)
    requires Lawful(lib) && AcceptedPrefix(prefix) && name != "" && OverAlphabet(name)
    ensures var room, userRoom := 58 - |prefix|, 61 - |prefix|;
      IsNamed(lib, id, prefix, name,
        if |name| <= room then name else name[..room], if |name| <= userRoom then name else name[..userRoom])
  {
    CleanKeepsClean(lib, name);
  }

  /** A name without any character that can be used is as good as none: the id's hash is used. */
  lemma UnusableNameIsHashed(lib: Library, id: string, prefix: string, name: string)
    requires AcceptedPrefix(prefix) && forall i | 0 <= i < |name| :: !InAlphabet(lib.lower(name[i]))
    ensures IsNamed(lib, id, prefix, name, lib.hash(id), lib.hash(id))
  {
    NothingIsClean(lib, name);
  }

  lemma {:induction false} NothingIsClean(lib: Library, name: string)
    requires forall i | 0 <= i < |name| :: !InAlphabet(lib.lower(name[i]))
    ensures Clean(lib, name) == ""
  {
    if name != [] {
      NothingIsClean(lib, name[1..]);
    }
  }

  /** Case does not matter ... */
  lemma SameLowerSameNames(lib: Library, id: string, prefix: string, name: string, name': string)
    requires AcceptedPrefix(prefix) && |name'| == |name|
    requires forall i | 0 <= i < |name| :: lib.lower(name'[i]) == lib.lower(name[i])
    ensures NamesFor(lib, id, prefix, name') == NamesFor(lib, id, prefix, name)
    ensures UserFor(lib, id, prefix, name') == UserFor(lib, id, prefix, name)
  {
    SameLowerSameClean(lib, name, name');
  }

  lemma {:induction false} SameLowerSameClean(lib: Library, name: string, name': string)
    requires |name'| == |name| && forall i | 0 <= i < |name| :: lib.lower(name'[i]) == lib.lower(name[i])
    ensures Clean(lib, name') == Clean(lib, name)
  {
    if name != [] {
      SameLowerSameClean(lib, name[1..], name'[1..]);
    }
  }

  /** ... and neither does a character that cannot be used. */
  lemma StrayCharacterDoesNotMatter(lib: Library, id: string, prefix: string, front: string, c: char, back: string)
    requires AcceptedPrefix(prefix) && !InAlphabet(lib.lower(c))
    ensures NamesFor(lib, id, prefix, front + [c] + back) == NamesFor(lib, id, prefix, front + back)
    ensures UserFor(lib, id, prefix, front + [c] + back) == UserFor(lib, id, prefix, front + back)
  {
    CleanSkips(lib, front, c, back);
  }

  lemma {:induction false} CleanSkips(lib: Library, front: string, c: char, back: string)
    requires !InAlphabet(lib.lower(c))
    ensures Clean(lib, front + [c] + back) == Clean(lib, front + back)
  {
    if front == [] {
      assert front + [c] + back == [c] + back && ([c] + back)[1..] == back && front + back == back;
    } else {
      CleanSkips(lib, front[1..], c, back);
      assert (front + [c] + back)[1..] == front[1..] + [c] + back && (front + back)[1..] == front[1..] + back;
    }
  }

  /** Two instances that share one derived name share all three. */
  lemma SharedNamesAreAllShared(lib: Library, prefix: string, id: string, name: string, id': string, name': string)
    requires AcceptedPrefix(prefix)
    ensures var n, n' := NamesFor(lib, id, prefix, name), NamesFor(lib, id', prefix, name');
      && (n.database == n'.database <==> n == n')
      && (n.groupRole == n'.groupRole <==> n == n')
      && (n.tablespace == n'.tablespace <==> n == n')
  {
    var n, n' := NamesFor(lib, id, prefix, name), NamesFor(lib, id', prefix, name');
    CancelSuffix(n.database, n'.database, "_grp");
    CancelSuffix(n.database, n'.database, "_ts");
  }

  lemma CancelSuffix(a: string, b: string, suffix: string)
    ensures a + suffix == b + suffix <==> a == b
  {
    if a + suffix == b + suffix {
      assert |a| == |b|;
      assert a == (a + suffix)[..|a|] == b;
    }
  }

  /** Group roles and binding users live in one catalog table; the kinds cannot collide. */
  lemma GroupRoleIsNeverUser(lib: Library, prefix: string, id: string, name: string, bindingId: string,
          userName: string)
    requires AcceptedPrefix(prefix)
    ensures NamesFor(lib, id, prefix, name).groupRole != UserFor(lib, bindingId, prefix, userName)
  {
    assert NamesFor(lib, id, prefix, name).groupRole[|prefix|] == '_';
    assert UserFor(lib, bindingId, prefix, userName)[|prefix|] == 'u';
  }

  /** A naming scheme as the rest of the broker sees it. */
  datatype Naming = Naming(instance: (string, string) -> Names, user: (string, string) -> string)

  /** What the broker's safety needs of its names. */
  ghost predicate Sound(n: Naming)
  {
    && (forall id, name, id', name' ::
          var m, m' := n.instance(id, name), n.instance(id', name');
          && (m.database == m'.database ==> m == m')
          && (m.groupRole == m'.groupRole ==> m == m')
          && (m.tablespace == m'.tablespace ==> m == m'))
    && (forall id, name, b, name' :: n.instance(id, name).groupRole != n.user(b, name'))
  }

  function Derived(lib: Library, prefix: string): Naming
    requires AcceptedPrefix(prefix)
  {
    Naming((id, name) => NamesFor(lib, id, prefix, name), (id, name) => UserFor(lib, id, prefix, name))
  }

  /** The broker's own derivation is such a scheme for every accepted prefix. */
  lemma DerivedNamingIsSound(lib: Library, prefix: string)
    requires AcceptedPrefix(prefix)
    ensures Sound(Derived(lib, prefix))
  {
    var n := Derived(lib, prefix);
    forall id, name, id', name'
      ensures
        var m, m' := n.instance(id, name), n.instance(id', name');
        && (m.database == m'.database ==> m == m')
        && (m.groupRole == m'.groupRole ==> m == m')
        && (m.tablespace == m'.tablespace ==> m == m')
    {
      SharedNamesAreAllShared(lib, prefix, id, name, id', name');
    }
    forall id, name, b, name' ensures n.instance(id, name).groupRole != n.user(b, name') {
      GroupRoleIsNeverUser(lib, prefix, id, name, b, name');
    }
  }

  // ------------------------------------------------- quoting

  function Doubled(s: string, q: char): string
  {
    if s == [] then [] else (if s[0] == q then [q, q] else [s[0]]) + Doubled(s[1..], q)
  }

  function QuoteIdent(name: string): string { ['"'] + Doubled(name, '"') + ['"'] }

  function QuoteLiteral(value: string): string { ['\''] + Doubled(value, '\'') + ['\''] }

  /** How a SQL server reads on after an opening quote: up to a quote that is not doubled. */
  function Unquote(s: string, q: char): Option<(string, string)>
  {
    if s == [] then None
    else if s[0] != q then
      (match Unquote(s[1..], q) case None => None case Some((value, rest)) => Some(([s[0]] + value, rest)))
    else if |s| >= 2 && s[1] == q then
      (match Unquote(s[2..], q) case None => None case Some((value, rest)) => Some(([q] + value, rest)))
    else Some(([], s[1..]))
  }

  /** A quoted value is read back as that value and ends where its own closing quote is, whatever it contains. */
  lemma {:induction false} QuotedReadsBack(s: string, q: char, rest: string)
    requires rest == [] || rest[0] != q
    ensures Unquote(Doubled(s, q) + [q] + rest, q) == Some((s, rest))
  {
    var text := Doubled(s, q) + [q] + rest;
    if s != [] {
      QuotedReadsBack(s[1..], q, rest);
      assert text == (if s[0] == q then [q, q] else [s[0]]) + (Doubled(s[1..], q) + [q] + rest);
      assert [s[0]] + s[1..] == s;
    }
  }

  /** What stands between an identifier's, or a literal's, quotes in SQL text is the value, whatever follows. */
  lemma QuotesReadBack(s: string, rest: string)
    requires rest == [] || (rest[0] != '"' && rest[0] != '\'')
    ensures var text := QuoteIdent(s) + rest;
      text[0] == '"' && Unquote(text[1..], '"') == Some((s, rest))
    ensures var text := QuoteLiteral(s) + rest;
      text[0] == '\'' && Unquote(text[1..], '\'') == Some((s, rest))
  {
    hide Doubled, Unquote;
    QuotedReadsBack(s, '"', rest);
    QuotedReadsBack(s, '\'', rest);
    assert (QuoteIdent(s) + rest)[1..] == Doubled(s, '"') + ['"'] + rest;
    assert (QuoteLiteral(s) + rest)[1..] == Doubled(s, '\'') + ['\''] + rest;
  }

  // ------------------------------------------------- passwords

  const LOWERS := "abcdefghijklmnopqrstuvwxyz"
  const UPPERS := "ABCDEFGHIJKLMNOPQRSTUVWXYZ"
  const DIGITS := "0123456789"
  const SPECIALS := "!#%*+-=?@^_~"
  const PASSWORD_LENGTH := 28

  function PasswordAlphabet(): string { LOWERS + UPPERS + DIGITS + SPECIALS }

  predicate IsUpper(c: char) { 'A' <= c <= 'Z' }

  predicate IsSpecial(c: char) { !IsUpper(c) && !IsLetter(c) && !IsDigit(c) }

  /** One character at least of each of the four classes. */
  predicate Qualifies(p: string)
  {
    && (exists i | 0 <= i < |p| :: IsUpper(p[i])) && (exists i | 0 <= i < |p| :: IsLetter(p[i]))
    && (exists i | 0 <= i < |p| :: IsDigit(p[i])) && (exists i | 0 <= i < |p| :: IsSpecial(p[i]))
  }

  lemma UppersAreListed(c: char)
    ensures c in UPPERS <==> IsUpper(c)
  {
    assert |UPPERS| == 26 && forall i | 0 <= i < 26 :: UPPERS[i] == 'A' + i as char;
    if IsUpper(c) {
      assert UPPERS[(c - 'A') as int] == c;
    }
  }

  lemma LowersAreListed(c: char)
    ensures c in LOWERS <==> IsLetter(c)
  {
    assert |LOWERS| == 26 && forall i | 0 <= i < 26 :: LOWERS[i] == 'a' + i as char;
    if IsLetter(c) {
      assert LOWERS[(c - 'a') as int] == c;
    }
  }

  lemma DigitsAreListed(c: char)
    ensures c in DIGITS <==> IsDigit(c)
  {
    assert |DIGITS| == 10 && forall i | 0 <= i < 10 :: DIGITS[i] == '0' + i as char;
    if IsDigit(c) {
      assert DIGITS[(c - '0') as int] == c;
    }
  }

  lemma SpecialsAreListed(c: char)
    ensures c in SPECIALS ==> IsSpecial(c)
  {
  }

  /** A text over the alphabet qualifies exactly when it has a character of each of the four lists. */
  lemma QualifiesByLists(p: string)
    requires forall i | 0 <= i < |p| :: p[i] in PasswordAlphabet()
    ensures Qualifies(p) <==>
      && (exists i | 0 <= i < |p| :: p[i] in UPPERS) && (exists i | 0 <= i < |p| :: p[i] in LOWERS)
      && (exists i | 0 <= i < |p| :: p[i] in DIGITS) && (exists i | 0 <= i < |p| :: p[i] in SPECIALS)
  {
    hide IsUpper, IsLetter, IsDigit;
    forall i | 0 <= i < |p|
      ensures p[i] in UPPERS <==> IsUpper(p[i])
      ensures p[i] in LOWERS <==> IsLetter(p[i])
      ensures p[i] in DIGITS <==> IsDigit(p[i])
      ensures p[i] in SPECIALS <==> IsSpecial(p[i])
    {
      UppersAreListed(p[i]);
      LowersAreListed(p[i]);
      DigitsAreListed(p[i]);
      SpecialsAreListed(p[i]);
      assert p[i] in LOWERS || p[i] in UPPERS || p[i] in DIGITS || p[i] in SPECIALS;
    }
  }

  /** The `k`-th attempt that a stream of draws makes. */
  function Drawn(draw: nat -> nat, k: nat): (p: string)
    requires forall i :: draw(i) < |PasswordAlphabet()|
    ensures |p| == PASSWORD_LENGTH && forall i | 0 <= i < |p| :: p[i] in PasswordAlphabet()
  {
    seq(PASSWORD_LENGTH, i requires 0 <= i < PASSWORD_LENGTH => PasswordAlphabet()[draw(PASSWORD_LENGTH * k + i)])
  }

  /** The loop that fills one attempt. */
  method DrawPassword(draw: nat -> nat, k: nat) returns (p: string)
    requires forall i :: draw(i) < |PasswordAlphabet()|
    ensures p == Drawn(draw, k)
  {
    hide PasswordAlphabet;
    var bytes := new char[PASSWORD_LENGTH];
    for i := 0 to PASSWORD_LENGTH
      invariant bytes[..i] == Drawn(draw, k)[..i]
    {
      bytes[i] := PasswordAlphabet()[draw(PASSWORD_LENGTH * k + i)];
    }
    p := bytes[..];
  }

  /** The retry loop, on a source of randomness whose attempt number `enough` qualifies, as one sooner or later does:
      the first attempt that qualifies is the password. */
  method RandomPassword(draw: nat -> nat, ghost enough: nat) returns (password: string)
    requires (forall i :: draw(i) < |PasswordAlphabet()|) && Qualifies(Drawn(draw, enough))
    ensures exists k | 0 <= k <= enough ::
      password == Drawn(draw, k) && Qualifies(Drawn(draw, k)) && forall j | 0 <= j < k :: !Qualifies(Drawn(draw, j))
  {
    hide Drawn, Qualifies;
    var k: nat := 0;
    while true
      invariant k <= enough && forall j | 0 <= j < k :: !Qualifies(Drawn(draw, j))
      decreases enough - k
    {
      password := DrawPassword(draw, k);
      var ok := HasAllClasses(password);
      if ok {
        return;
      }
      k := k + 1;
    }
  }

  /** The loop over the characters of one attempt. */
  method HasAllClasses(p: string) returns (ok: bool)
    ensures ok <==> Qualifies(p)
  {
    var hasUpper, hasLower, hasDigit, hasSpecial := false, false, false, false;
    for i := 0 to |p|
      invariant hasUpper <==> exists j | 0 <= j < i :: IsUpper(p[j])
      invariant hasLower <==> exists j | 0 <= j < i :: IsLetter(p[j])
      invariant hasDigit <==> exists j | 0 <= j < i :: IsDigit(p[j])
      invariant hasSpecial <==> exists j | 0 <= j < i :: IsSpecial(p[j])
    {
      if IsUpper(p[i]) {
        hasUpper := true;
      } else if IsLetter(p[i]) {
        hasLower := true;
      } else if IsDigit(p[i]) {
        hasDigit := true;
      } else {
        hasSpecial := true;
      }
    }
    ok := hasUpper && hasLower && hasDigit && hasSpecial;
  }
}
