/** The connection URI handed to a bound application, and how a client takes it apart again. */
module Uri {
  import opened Wrappers
  import opened Names
  import Decimal

  predicate IsHexDigit(c: char) { '0' <= c <= '9' || 'A' <= c <= 'F' }

  function HexValue(c: char): nat
    requires IsHexDigit(c)
  {
    if '0' <= c <= '9' then (c - '0') as nat else (c - 'A') as nat + 10
  }

  function HexDigit(d: nat): (c: char)
    requires d < 16
    ensures IsHexDigit(c) && HexValue(c) == d
  {
    if d < 10 then '0' + d as char else 'A' + (d - 10) as char
  }

  /** Letters, digits and the marks that are never escaped (section 2.3 of RFC 3986). */
  predicate IsUnreserved(c: char)
  {
    'a' <= c <= 'z' || 'A' <= c <= 'Z' || '0' <= c <= '9' || c == '-' || c == '_' || c == '.' || c == '~'
  }

  /** Go's url.QueryEscape. Characters of more than one byte do not occur here and are left as they are. */
  function QueryEscape(s: string): string
  {
    if s == [] then []
    else
      (if IsUnreserved(s[0]) || s[0] >= 128 as char then [s[0]]
       else if s[0] == ' ' then ['+']
       else Escape(s[0]))
      + QueryEscape(s[1..])
  }

  /** Percent-decoding (section 2.1 of RFC 3986): a plus sign is a plus sign. */
  function PercentDecode(s: string): Option<string>
  {
    if s == [] then Some([])
    else if s[0] == '%' then
      if |s| < 3 || !IsHexDigit(s[1]) || !IsHexDigit(s[2]) || HexValue(s[1]) >= 8 then None
      else
        (match PercentDecode(s[3..])
         case None => None
         case Some(rest) => Some([(16 * HexValue(s[1]) + HexValue(s[2])) as char] + rest))
    else
      (match PercentDecode(s[1..])
       case None => None
       case Some(rest) => Some([s[0]] + rest))
  }

  datatype Settings = Settings(host: string, port: nat, sslmode: string)

  const SCHEME := "postgresql://"

  function Query(c: Settings): string
  {
    if c.sslmode == "disable" then "" else "?sslmode=" + QueryEscape(c.sslmode)
  }

  /** Everything behind the scheme: user information, host and port, then the path. */
  function Authority(c: Settings, username: string, password: string): string
  {
    QueryEscape(username) + [':'] + QueryEscape(password) + ['@'] + c.host + [':'] + Decimal.OfNat(c.port)
  }

  predicate IsAscii(s: string) { forall i | 0 <= i < |s| :: s[i] < 128 as char }

  function ConnectionUri(c: Settings, database: string, username: string, password: string): string
  {
    SCHEME + Authority(c, username, password) + ['/'] + database + Query(c)
  }

  // ------------------------------------------------- taking a URI apart

  /** The text before the first of the stop characters, and the rest from it on. */
  function Until(s: string, stops: set<char>): (parts: (string, string))
    ensures parts.0 + parts.1 == s
  {
    if s == [] || s[0] in stops then ([], s)
    else
      var (before, rest) := Until(s[1..], stops);
      ([s[0]] + before, rest)
  }

  datatype Parts = Parts(username: string, password: string, hostport: string, path: string, query: Option<string>)

  /** Sections 3.2 to 3.4 of RFC 3986: the authority runs up to the next slash, question mark or number sign; its user
      information up to the at sign, split at the first colon; the path up to a question mark or number sign; a query
      from its question mark up to a number sign. */
  function Parse(uri: string): Option<Parts>
  {
    if !(SCHEME <= uri) then None
    else
      var (authority, rest) := Until(uri[|SCHEME|..], {'/', '?', '#'});
      var (userinfo, hostport) := Until(authority, {'@'});
      var (user, password) := Until(userinfo, {':'});
      if hostport == [] || password == [] || rest == [] || rest[0] != '/' then None
      else
        var (path, behind) := Until(rest[1..], {'?', '#'});
        var query := if behind != [] && behind[0] == '?' then Some(Until(behind[1..], {'#'}).0) else None;
        match (PercentDecode(user), PercentDecode(password[1..]))
        case (Some(u), Some(p)) => Some(Parts(u, p, hostport[1..], path, query))
        case _ => None
  }

  /** Free of the characters a URI's structure is made of. */
  predicate Free(s: string, stops: set<char>)
  {
    forall i | 0 <= i < |s| :: s[i] !in stops
  }

  lemma {:induction false} UntilStops(a: string, rest: string, stops: set<char>)
    requires Free(a, stops) && (rest == [] || rest[0] in stops)
    ensures Until(a + rest, stops) == (a, rest)
  {
    if a == [] {
      assert a + rest == rest;
    } else {
      UntilStops(a[1..], rest, stops);
      assert a + rest == [a[0]] + (a[1..] + rest) && a == [a[0]] + a[1..];
    }
  }

  lemma HexDigitsRoundTrip(n: nat)
    requires n < 128
    ensures 16 * HexValue(HexDigit(n / 16)) + HexValue(HexDigit(n % 16)) == n && n / 16 < 8
  {
  }

  lemma DecodePlain(c: char, rest: string)
    requires c != '%' && PercentDecode(rest).Some?
    ensures PercentDecode([c] + rest) == Some([c] + PercentDecode(rest).value)
  {
    assert ([c] + rest)[1..] == rest;
  }

  function Escape(c: char): string
    requires c < 128 as char
  {
    ['%', HexDigit(c as nat / 16), HexDigit(c as nat % 16)]
  }

  lemma DecodeEscape(c: char, rest: string)
    requires c < 128 as char && PercentDecode(rest).Some?
    ensures PercentDecode(Escape(c) + rest) == Some([c] + PercentDecode(rest).value)
  {
    var escape := Escape(c);
    HexDigitsRoundTrip(c as nat);
    hide HexDigit, HexValue;
    assert (escape + rest)[3..] == rest && |escape + rest| >= 3;
    assert (escape + rest)[0] == '%' && (escape + rest)[1] == escape[1] && (escape + rest)[2] == escape[2];
  }

  lemma FreeConcat(a: string, b: string, stops: set<char>)
    ensures Free(a + b, stops) <==> Free(a, stops) && Free(b, stops)
  {
    if Free(a + b, stops) {
      assert forall i | 0 <= i < |a| :: a[i] == (a + b)[i];
      assert forall i | 0 <= i < |b| :: b[i] == (a + b)[|a| + i];
    }
  }

  lemma EscapeIsFree(c: char)
    requires c < 128 as char
    ensures Free(Escape(c), {'/', '?', '#', '@', ':'})
  {
    var e := Escape(c);
    assert IsHexDigit(e[1]) && IsHexDigit(e[2]);
  }

  /** Escaped text without blanks decodes to itself and contains none of the characters that structure a URI. */
  lemma {:induction false} EscapedDecodes(s: string)
    requires IsAscii(s) && ' ' !in s
    ensures PercentDecode(QueryEscape(s)) == Some(s)
    ensures Free(QueryEscape(s), {'/', '?', '#', '@', ':'})
  {
    hide PercentDecode;
    if s == [] {
      NothingDecodes();
    } else {
      var rest := QueryEscape(s[1..]);
      EscapedDecodes(s[1..]);
      assert s[0] in s && s == [s[0]] + s[1..];
      if IsUnreserved(s[0]) {
        DecodePlain(s[0], rest);
        FreeConcat([s[0]], rest, {'/', '?', '#', '@', ':'});
      } else {
        DecodeEscape(s[0], rest);
        EscapeIsFree(s[0]);
        FreeConcat(Escape(s[0]), rest, {'/', '?', '#', '@', ':'});
      }
    }
  }

  lemma NothingDecodes()
    ensures PercentDecode([]) == Some([])
  {
  }

  lemma FewerStops(s: string)
    requires Free(s, {'/', '?', '#', '@', ':'})
    ensures Free(s, {'/', '?', '#'}) && Free(s, {'@'}) && Free(s, {':'})
  {
  }

  lemma PortIsFree(port: nat)
    ensures Free(Decimal.OfNat(port), {'/', '?', '#', '@'})
  {
    Decimal.ValueOfNat(port);
  }

  lemma AuthoritySplits(c: Settings, username: string, password: string)
    requires IsAscii(username) && IsAscii(password) && ' ' !in username && ' ' !in password
    requires Free(c.host, {'/', '?', '#', '@'})
    ensures var authority := Authority(c, username, password);
      var hostport := c.host + [':'] + Decimal.OfNat(c.port);
      && Free(authority, {'/', '?', '#'})
      && Until(authority, {'@'}) == (QueryEscape(username) + [':'] + QueryEscape(password), ['@'] + hostport)
      && Until(QueryEscape(username) + [':'] + QueryEscape(password), {':'}) ==
          (QueryEscape(username), [':'] + QueryEscape(password))
  {
    EscapedDecodes(username);
    EscapedDecodes(password);
    PortIsFree(c.port);
    FewerStops(QueryEscape(username));
    FewerStops(QueryEscape(password));
    AuthorityOf(QueryEscape(username), QueryEscape(password), c.host, Decimal.OfNat(c.port));
  }

  lemma AuthorityOf(u: string, p: string, host: string, port: string)
    requires Free(u, {'/', '?', '#'}) && Free(u, {'@'}) && Free(u, {':'}) && Free(p, {'/', '?', '#'}) && Free(p, {'@'})
    requires Free(host, {'/', '?', '#', '@'}) && Free(port, {'/', '?', '#', '@'})
    ensures var authority := u + [':'] + p + ['@'] + host + [':'] + port;
      && Free(authority, {'/', '?', '#'})
      && Until(authority, {'@'}) == (u + [':'] + p, ['@'] + (host + [':'] + port))
      && Until(u + [':'] + p, {':'}) == (u, [':'] + p)
  {
    var userinfo, tail := u + [':'] + p, ['@'] + (host + [':'] + port);
    assert u + [':'] + p + ['@'] + host + [':'] + port == userinfo + tail;
    assert userinfo == u + ([':'] + p);
    FreeConcat(u, [':'], {'@'});
    FreeConcat(u + [':'], p, {'@'});
    UntilStops(userinfo, tail, {'@'});
    UntilStops(u, [':'] + p, {':'});
    AuthorityIsFree(u, p, host, port);
  }

  lemma AuthorityIsFree(u: string, p: string, host: string, port: string)
    requires Free(u, {'/', '?', '#'}) && Free(p, {'/', '?', '#'}) && Free(host, {'/', '?', '#', '@'})
    requires Free(port, {'/', '?', '#', '@'})
    ensures Free(u + [':'] + p + ['@'] + host + [':'] + port, {'/', '?', '#'})
  {
    var stops := {'/', '?', '#'};
    assert Free([':'], stops) && Free(['@'], stops) && Free(host, stops) && Free(port, stops);
    FreeConcat(u, [':'], stops);
    FreeConcat(u + [':'], p, stops);
    FreeConcat(u + [':'] + p, ['@'], stops);
    FreeConcat(u + [':'] + p + ['@'], host, stops);
    FreeConcat(u + [':'] + p + ['@'] + host, [':'], stops);
    FreeConcat(u + [':'] + p + ['@'] + host + [':'], port, stops);
  }

  function Blanked(s: string): string
  {
    if s == [] then [] else [if s[0] == '+' then ' ' else s[0]] + Blanked(s[1..])
  }

  /** How a form field is read: a plus sign is a blank, then percent-decoding. */
  function FormDecode(s: string): Option<string> { PercentDecode(Blanked(s)) }

  lemma {:induction false} BlankedConcat(a: string, b: string)
    ensures Blanked(a + b) == Blanked(a) + Blanked(b)
  {
    if a == [] {
      assert a + b == b;
    } else {
      BlankedConcat(a[1..], b);
      assert (a + b)[1..] == a[1..] + b;
    }
  }

  lemma {:induction false} BlankedWithoutPlus(a: string)
    requires '+' !in a
    ensures Blanked(a) == a
  {
    if a != [] {
      BlankedWithoutPlus(a[1..]);
    }
  }

  /** Any escaped text is read back as a form field, and does not end its query. */
  lemma {:induction false} EscapedFormDecodes(s: string)
    requires IsAscii(s)
    ensures FormDecode(QueryEscape(s)) == Some(s) && Free(QueryEscape(s), {'#'})
  {
    hide PercentDecode;
    if s == [] {
      NothingDecodes();
    } else {
      var rest := QueryEscape(s[1..]);
      EscapedFormDecodes(s[1..]);
      assert s == [s[0]] + s[1..];
      if IsUnreserved(s[0]) || s[0] == ' ' {
        var c := if s[0] == ' ' then '+' else s[0];
        assert ([c] + rest)[1..] == rest;
        DecodePlain(s[0], Blanked(rest));
        FreeConcat([c], rest, {'#'});
      } else {
        EscapeIsFree(s[0]);
        var e := Escape(s[0]);
        assert IsHexDigit(e[1]) && IsHexDigit(e[2]);
        BlankedConcat(e, rest);
        BlankedWithoutPlus(e);
        DecodeEscape(s[0], Blanked(rest));
        FreeConcat(e, rest, {'#'});
      }
    }
  }

  const SSLMODE := "sslmode="

  /** A query that names the mode: `sslmode=` and an escaped form of it. */
  predicate NamesMode(query: string, sslmode: string)
  {
    SSLMODE <= query && FormDecode(query[|SSLMODE|..]) == Some(sslmode)
  }

  lemma QueryNamesMode(c: Settings)
    requires IsAscii(c.sslmode) && c.sslmode != "disable"
    ensures var q := Query(c);
      q != [] && q[0] == '?' && Until(q[1..], {'#'}) == (q[1..], []) && NamesMode(q[1..], c.sslmode)
  {
    hide FormDecode, QueryEscape;
    var e, q := QueryEscape(c.sslmode), Query(c);
    EscapedFormDecodes(c.sslmode);
    assert q[1..] == SSLMODE + e;
    assert (SSLMODE + e)[|SSLMODE|..] == e;
    FreeConcat(SSLMODE, e, {'#'});
    UntilStops(q[1..], [], {'#'});
    assert q[1..] + [] == q[1..];
  }

  /** For every user name and password without blanks, and a plain host, a client that follows RFC 3986 gets exactly
      the user, the password, the database and the TLS mode back out of the connection URI; it finds no mode exactly
      when that is `disable`. */
  lemma UriRoundTrip(c: Settings, database: string, username: string, password: string)
    requires IsAscii(username) && IsAscii(password) && ' ' !in username && ' ' !in password
    requires Free(c.host, {'/', '?', '#', '@'}) && Free(database, {'?', '#'})
    ensures var parts := Parse(ConnectionUri(c, database, username, password));
      && parts.Some? && parts.value.username == username && parts.value.password == password
      && parts.value.hostport == c.host + [':'] + Decimal.OfNat(c.port) && parts.value.path == database
      && (parts.value.query == None <==> c.sslmode == "disable")
      && (parts.value.query.Some? && IsAscii(c.sslmode) ==> NamesMode(parts.value.query.value, c.sslmode))
  {
    hide QueryEscape, PercentDecode, FormDecode, NamesMode, Until, Authority, Query;
    var uri, authority, query := ConnectionUri(c, database, username, password), Authority(c, username, password),
        Query(c);
    var rest := ['/'] + database + query;
    assert uri == SCHEME + (authority + rest) && uri[|SCHEME|..] == authority + rest;
    AuthoritySplits(c, username, password);
    UntilStops(authority, rest, {'/', '?', '#'});
    assert rest[1..] == database + query;
    QueryIsMarked(c);
    UntilStops(database, query, {'?', '#'});
    EscapedDecodes(username);
    EscapedDecodes(password);
    assert ([':'] + QueryEscape(password))[1..] == QueryEscape(password);
    var hostport := c.host + [':'] + Decimal.OfNat(c.port);
    assert (['@'] + hostport)[1..] == hostport;
    if c.sslmode != "disable" && IsAscii(c.sslmode) {
      QueryNamesMode(c);
    }
  }

  lemma QueryIsMarked(c: Settings)
    ensures Query(c) == [] || Query(c)[0] == '?'
    ensures c.sslmode == "disable" <==> Query(c) == []
  {
  }

  /** Derived user names and every password the generator can return meet that condition. */
  lemma GeneratedSecretsAreEscapable(lib: Library, prefix: string, b: string, name: string, draw: nat -> nat, k: nat)
    requires Lawful(lib) && AcceptedPrefix(prefix) && forall i :: draw(i) < |PasswordAlphabet()|
    ensures var u, p := UserFor(lib, b, prefix, name), Drawn(draw, k);
      IsAscii(u) && ' ' !in u && IsAscii(p) && ' ' !in p
  {
    DerivedNamesAreIdentifiers(lib, prefix, b, name);
    AlphabetIsAscii();
    hide UserFor, PasswordAlphabet, Drawn;
    var u, p := UserFor(lib, b, prefix, name), Drawn(draw, k);
    forall i | 0 <= i < |p| ensures p[i] < 128 as char && p[i] != ' ' {
      assert p[i] in PasswordAlphabet();
    }
  }

  lemma LowersAreAscii()
    ensures forall c | c in LOWERS :: c < 128 as char && c != ' '
  {
  }

  lemma UppersAreAscii()
    ensures forall c | c in UPPERS :: c < 128 as char && c != ' '
  {
  }

  lemma AlphabetIsAscii()
    ensures forall c | c in PasswordAlphabet() :: c < 128 as char && c != ' '
  {
    LowersAreAscii();
    UppersAreAscii();
    assert forall c | c in DIGITS :: c < 128 as char && c != ' ';
    assert forall c | c in SPECIALS :: c < 128 as char && c != ' ';
  }

  // ------------------------------------------------- the credential payload

  function Credentials(c: Settings, database: string, username: string, password: string): map<string, string>
  {
    map["uri" := ConnectionUri(c, database, username, password),
        "hostname" := c.host,
        "port" := Decimal.OfNat(c.port),
        "database" := database,
        "username" := username,
        "password" := password,
        "sslmode" := c.sslmode]
  }

  /** The payload agrees with itself: its URI names the same user, password, host, port, database and TLS mode as its
      fields, and these are what was asked for. */
  lemma PayloadIsConsistent(c: Settings, database: string, username: string, password: string)
    requires IsAscii(username) && IsAscii(password) && ' ' !in username && ' ' !in password
    requires Free(c.host, {'/', '?', '#', '@'}) && Free(database, {'?', '#'})
    ensures var m := Credentials(c, database, username, password);
      && m["database"] == database && m["username"] == username && m["password"] == password
      && m["hostname"] == c.host && Decimal.IsDigits(m["port"]) && Decimal.Value(m["port"]) == c.port
      && m["sslmode"] == c.sslmode
      && var parts := Parse(m["uri"]);
         && "postgresql://" <= m["uri"] && parts.Some? && parts.value.username == m["username"]
         && parts.value.password == m["password"]
         && parts.value.hostport == m["hostname"] + [':'] + m["port"] && parts.value.path == m["database"]
         && (parts.value.query == None <==> m["sslmode"] == "disable")
         && (parts.value.query.Some? && IsAscii(c.sslmode) ==> NamesMode(parts.value.query.value, m["sslmode"]))
  {
    UriRoundTrip(c, database, username, password);
    PayloadFields(c, database, username, password);
    Decimal.ValueOfNat(c.port);
    hide Credentials, ConnectionUri, Parse, IsAscii, Free, NamesMode, Decimal.OfNat, Decimal.Value, Decimal.IsDigits;
  }

  lemma PayloadFields(c: Settings, database: string, username: string, password: string)
    ensures var m := Credentials(c, database, username, password);
      && "uri" in m && "hostname" in m && "port" in m && "database" in m && "username" in m && "password" in m
      && "sslmode" in m && m["sslmode"] == c.sslmode
      && m["uri"] == ConnectionUri(c, database, username, password) && m["hostname"] == c.host
      && m["port"] == Decimal.OfNat(c.port)
      && m["database"] == database && m["username"] == username && m["password"] == password
  {
    hide ConnectionUri;
    assert |"uri"| == 3 && |"port"| == 4 && |"sslmode"| == 7;
    assert "hostname"[0] == 'h' && "database"[0] == 'd' && "username"[0] == 'u' && "password"[0] == 'p';
  }
}
