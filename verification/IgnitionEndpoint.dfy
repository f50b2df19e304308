/** Rewriting of ignition endpoint URLs: brackets around an IPv6 host, and the
    path stripped. What url.Parse accepts and what net.ParseIP takes for an
    address are parameters. */
module IgnitionEndpoint {
  import opened Wrappers
  import opened Text

  const SCHEME_SEP := "://"

  /** The library functions: url.Parse succeeds, net.ParseIP succeeds. */
  datatype Library = Library(parses: string -> bool, isIP: string -> bool)

  // ---- Brackets ------------------------------------------------------------------

  function JoinHostPort(host: string, port: string): string {
    if Index(host, ':') >= 0 then "[" + host + "]:" + port else host + ":" + port
  }

  function NormalizeHTTPURL(lib: Library, raw: string): string {
    if raw == "" || lib.parses(raw) then raw
    else
      var at := IndexOf(raw, SCHEME_SEP);
      if at < 0 then raw
      else
        var scheme, rest := raw[..at + |SCHEME_SEP|], raw[at + |SCHEME_SEP|..];
        var slash := Index(rest, '/');
        if slash >= 0 then BracketHost(lib, raw, scheme, rest[..slash], rest[slash..])
        else BracketHost(lib, raw, scheme, rest, "")
  }

  /** The second half of normalizeHTTPURL: what to do with an authority. */
  function BracketHost(lib: Library, raw: string, scheme: string, remainder: string, path: string): string {
    if "[" <= remainder then raw
    else
      var colon := LastIndex(remainder, ':');
      if colon < 0 then raw
      else
        var host, port := remainder[..colon], remainder[colon + 1..];
        if port == "" || !lib.isIP(host) || Index(host, ':') < 0 then raw
        else scheme + JoinHostPort(host, port) + path
  }

  /** The parts of a URL whose authority ends in a port: the first separator ends
      the scheme, the authority ends before the first slash, and the last colon in
      it starts the port. */
  datatype Parts = Parts(scheme: string, host: string, port: string, path: string)

  predicate IsParts(raw: string, p: Parts) {
    && raw == p.scheme + SCHEME_SEP + (p.host + ":" + p.port + p.path)
    && (forall j | 0 <= j < |p.scheme| :: !IsAt(raw, SCHEME_SEP, j))
    && Lacks(p.host, '/') && Lacks(p.port, '/') && Lacks(p.port, ':')
    && (p.path == "" || p.path[0] == '/')
  }

  function Bracketed(p: Parts): string {
    p.scheme + SCHEME_SEP + ("[" + p.host + "]" + ":" + p.port + p.path)
  }

  /** When a URL with these parts is rewritten. */
  predicate NeedsBrackets(lib: Library, raw: string, p: Parts) {
    !lib.parses(raw) && p.port != "" && !("[" <= p.host) && lib.isIP(p.host) && !Lacks(p.host, ':')
  }

  lemma IndexIsFirst(s: string, c: char, i: nat)
    requires i < |s| && s[i] == c && Lacks(s[..i], c)
    ensures Index(s, c) == i
  {
    assert forall j | 0 <= j < i :: s[j] == s[..i][j];
  }

  lemma LastIndexIsLast(s: string, c: char, i: nat)
    requires i < |s| && s[i] == c && Lacks(s[i + 1..], c)
    ensures LastIndex(s, c) == i
  {
    assert forall j | i < j < |s| :: s[j] == s[i + 1..][j - i - 1];
  }

  lemma IndexOfIsFirst(s: string, sub: string, i: nat)
    requires IsAt(s, sub, i) && forall j | 0 <= j < i :: !IsAt(s, sub, j)
    ensures IndexOf(s, sub) == i
  {
  }

  lemma SchemeFound(raw: string, scheme: string, rest: string)
    requires raw == scheme + SCHEME_SEP + rest
    requires forall j | 0 <= j < |scheme| :: !IsAt(raw, SCHEME_SEP, j)
    ensures IndexOf(raw, SCHEME_SEP) == |scheme|
    ensures raw[..|scheme| + |SCHEME_SEP|] == scheme + SCHEME_SEP && raw[|scheme| + |SCHEME_SEP|..] == rest
  {
    assert raw[|scheme|..|scheme| + |SCHEME_SEP|] == SCHEME_SEP;
    IndexOfIsFirst(raw, SCHEME_SEP, |scheme|);
  }

  lemma PathFound(remainder: string, path: string)
    requires Lacks(remainder, '/') && (path == "" || path[0] == '/')
    ensures var slash := Index(remainder + path, '/');
            && (path == "" ==> slash < 0 && remainder + path == remainder)
            && (path != "" ==> slash == |remainder| && (remainder + path)[..slash] == remainder && (remainder + path)[slash..] == path)
  {
    assert (remainder + path)[..|remainder|] == remainder;
    if path != "" {
      IndexIsFirst(remainder + path, '/', |remainder|);
    } else {
      assert remainder + path == remainder;
    }
  }

  lemma PortFound(host: string, port: string)
    requires Lacks(port, ':')
    ensures var remainder := host + ":" + port;
            LastIndex(remainder, ':') == |host| && remainder[..|host|] == host && remainder[|host| + 1..] == port
  {
    var remainder := host + ":" + port;
    assert remainder[|host| + 1..] == port && remainder[..|host|] == host;
    LastIndexIsLast(remainder, ':', |host|);
  }

  /** The rewrite of an authority that ends in a port. */
  lemma BracketsOfPort(lib: Library, raw: string, scheme: string, host: string, port: string, path: string)
    requires Lacks(port, ':')
    ensures BracketHost(lib, raw, scheme, host + ":" + port, path) ==
            if port != "" && !("[" <= host) && lib.isIP(host) && !Lacks(host, ':')
            then scheme + ("[" + host + "]:" + port) + path else raw
  {
    hide LastIndex;
    PortFound(host, port);
    assert "[" <= host + ":" + port <==> "[" <= host;
  }

  /** The parts decide: brackets go around the host exactly when they are needed,
      and everything else is kept as it is. */
  lemma NormalizeOfParts(lib: Library, raw: string, p: Parts)
    requires IsParts(raw, p)
    ensures NormalizeHTTPURL(lib, raw) == if NeedsBrackets(lib, raw, p) then Bracketed(p) else raw
  {
    hide Index, IndexOf, IsAt, BracketHost;
    var remainder := p.host + ":" + p.port;
    assert raw == p.scheme + SCHEME_SEP + (remainder + p.path);
    assert Lacks(remainder, '/');
    SchemeFound(raw, p.scheme, remainder + p.path);
    PathFound(remainder, p.path);
    BracketsOfPort(lib, raw, p.scheme + SCHEME_SEP, p.host, p.port, p.path);
    assert p.scheme + SCHEME_SEP + ("[" + p.host + "]:" + p.port) + p.path == Bracketed(p);
  }

  /** Where the code cuts a URL, there are parts. */
  lemma CutIsParts(raw: string, rest: string, p: Parts)
    requires IndexOf(raw, SCHEME_SEP) == |p.scheme| && raw[..|p.scheme|] == p.scheme
    requires rest == raw[|p.scheme| + |SCHEME_SEP|..] == p.host + ":" + p.port + p.path
    requires Lacks(p.host, '/') && Lacks(p.port, '/') && Lacks(p.port, ':') && (p.path == "" || p.path[0] == '/')
    ensures IsParts(raw, p)
  {
    assert raw == p.scheme + SCHEME_SEP + rest;
  }

  lemma AuthorityCut(remainder: string, host: string, port: string)
    requires Lacks(remainder, '/')
    requires var colon := LastIndex(remainder, ':'); colon >= 0 && host == remainder[..colon] && port == remainder[colon + 1..]
    ensures remainder == host + ":" + port && Lacks(host, '/') && Lacks(port, '/') && Lacks(port, ':')
  {
  }

  /** Without such parts a URL is left as it is. */
  lemma NormalizeWithoutParts(lib: Library, raw: string)
    requires forall p: Parts :: !IsParts(raw, p)
    ensures NormalizeHTTPURL(lib, raw) == raw
  {
    hide IndexOf, IsParts, BracketHost;
    var at := IndexOf(raw, SCHEME_SEP);
    if at >= 0 {
      var rest := raw[at + |SCHEME_SEP|..];
      var slash := Index(rest, '/');
      if slash >= 0 {
        WithoutPartsRaw(lib, raw, raw[..at], rest[..slash], rest[slash..]);
      } else {
        WithoutPartsRaw(lib, raw, raw[..at], rest, "");
      }
    }
  }

  lemma WithoutPartsRaw(lib: Library, raw: string, scheme: string, remainder: string, path: string)
    requires forall p: Parts :: !IsParts(raw, p)
    requires IndexOf(raw, SCHEME_SEP) == |scheme| && raw[..|scheme|] == scheme
    requires raw[|scheme| + |SCHEME_SEP|..] == remainder + path
    requires Lacks(remainder, '/') && (path == "" || path[0] == '/')
    ensures BracketHost(lib, raw, raw[..|scheme| + |SCHEME_SEP|], remainder, path) == raw
  {
    hide Index, LastIndex, IndexOf, IsParts;
    var colon := LastIndex(remainder, ':');
    if colon >= 0 {
      var p := Parts(scheme, remainder[..colon], remainder[colon + 1..], path);
      AuthorityCut(remainder, p.host, p.port);
      CutIsParts(raw, remainder + path, p);
    }
  }

  /** A URL is changed exactly when it has parts that need brackets, and then
      only by one pair of them around the host. */
  lemma NormalizeChangesIff(lib: Library, raw: string)
    ensures NormalizeHTTPURL(lib, raw) != raw <==> exists p: Parts :: IsParts(raw, p) && NeedsBrackets(lib, raw, p)
    ensures NormalizeHTTPURL(lib, raw) != raw ==>
      exists p: Parts :: IsParts(raw, p) && NormalizeHTTPURL(lib, raw) == Bracketed(p)
  {
    hide NormalizeHTTPURL;
    if p: Parts :| IsParts(raw, p) {
      NormalizeOfParts(lib, raw, p);
      assert |Bracketed(p)| == |raw| + 2;
      forall q: Parts | IsParts(raw, q) ensures NeedsBrackets(lib, raw, q) <==> NormalizeHTTPURL(lib, raw) != raw {
        NormalizeOfParts(lib, raw, q);
        assert |Bracketed(q)| == |raw| + 2;
      }
    } else {
      NormalizeWithoutParts(lib, raw);
    }
  }

  /** A second rewrite changes nothing, whatever the library accepts. */
  lemma NormalizeIdempotent(lib: Library, raw: string)
    ensures NormalizeHTTPURL(lib, NormalizeHTTPURL(lib, raw)) == NormalizeHTTPURL(lib, raw)
  {
    if p: Parts :| IsParts(raw, p) {
      NormalizeOfParts(lib, raw, p);
      if NeedsBrackets(lib, raw, p) {
        var q := p.(host := "[" + p.host + "]");
        BracketedParts(raw, p);
        NormalizeOfParts(lib, Bracketed(p), q);
      }
    } else {
      NormalizeWithoutParts(lib, raw);
    }
  }

  /** The rewritten URL has the same parts, but for the brackets. */
  lemma BracketedParts(raw: string, p: Parts)
    requires IsParts(raw, p)
    ensures IsParts(Bracketed(p), p.(host := "[" + p.host + "]"))
  {
    var q := p.(host := "[" + p.host + "]");
    var out := Bracketed(p);
    assert out == q.scheme + SCHEME_SEP + (q.host + ":" + q.port + q.path);
    var n := |p.scheme| + |SCHEME_SEP|;
    assert out[..n] == p.scheme + SCHEME_SEP == raw[..n];
    forall j | 0 <= j < |p.scheme| ensures !IsAt(out, SCHEME_SEP, j) {
      assert out[j..j + |SCHEME_SEP|] == out[..n][j..j + |SCHEME_SEP|] == raw[j..j + |SCHEME_SEP|];
      assert !IsAt(raw, SCHEME_SEP, j);
    }
    assert Lacks(q.host, '/');
  }

  // ---- URLs in components ----------------------------------------------------------

  /** What follows the scheme: without an authority, or with one. */
  datatype Hier = Opaque(text: string) | NoAuthority(path: string) | Authority(authority: string, path: string)

  /** A URL with a scheme. The parser does not tell an empty fragment from none. */
  datatype Url = Url(scheme: string, hier: Hier, query: Option<string>, fragment: string)

  predicate IsLetter(c: char) {
    'a' <= c <= 'z' || 'A' <= c <= 'Z'
  }

  predicate IsSchemeChar(c: char) {
    IsLetter(c) || '0' <= c <= '9' || c in "+-."
  }

  predicate IsScheme(s: string) {
    s != "" && IsLetter(s[0]) && forall i | 0 <= i < |s| :: IsSchemeChar(s[i])
  }

  function LowerChar(c: char): char {
    if 'A' <= c <= 'Z' then c - 'A' + 'a' else c
  }

  function Lower(s: string): string {
    seq(|s|, i requires 0 <= i < |s| => LowerChar(s[i]))
  }

  /** What comes before the first occurrence of a character, and after it. */
  function Before(s: string, c: char): string {
    if Index(s, c) < 0 then s else s[..Index(s, c)]
  }

  function After(s: string, c: char): Option<string> {
    if Index(s, c) < 0 then None else Some(s[Index(s, c) + 1..])
  }

  function SplitHier(s: string): Hier {
    if "//" <= s then
      var rest := s[2..];
      var slash := Index(rest, '/');
      if slash < 0 then Authority(rest, "") else Authority(rest[..slash], rest[slash..])
    else if "/" <= s then NoAuthority(s)
    else Opaque(s)
  }

  /** url.Parse of an accepted URL; None when it has no scheme. */
  function Split(s: string): Option<Url> {
    var fragment := After(s, '#');
    var scheme, rest := Before(Before(s, '#'), ':'), After(Before(s, '#'), ':');
    if rest.None? || !IsScheme(scheme) then None
    else Some(Url(Lower(scheme), SplitHier(Before(rest.value, '?')), After(rest.value, '?'),
                  if fragment.None? then "" else fragment.value))
  }

  function PrintHier(h: Hier): string {
    match h
    case Opaque(text) => text
    case NoAuthority(path) => path
    case Authority(authority, path) => if authority == "" && path == "" then "" else "//" + authority + path
  }

  function PrintQuery(q: Option<string>): string {
    if q.None? then "" else "?" + q.value
  }

  function PrintFragment(f: string): string {
    if f == "" then "" else "#" + f
  }

  /** String: the components put together again. */
  function Recompose(u: Url): string {
    u.scheme + ":" + PrintHier(u.hier) + PrintQuery(u.query) + PrintFragment(u.fragment)
  }

  function ClearedHier(h: Hier): Hier {
    match h
    case Opaque(_) => h
    case NoAuthority(_) => NoAuthority("")
    case Authority(a, _) => Authority(a, "")
  }

  function WithoutPath(u: Url): Url {
    u.(hier := ClearedHier(u.hier))
  }

  function IgnitionEndpointURLForACI(lib: Library, raw: string): string {
    var normalized := NormalizeHTTPURL(lib, raw);
    if !lib.parses(normalized) || Split(normalized).None? then normalized
    else Recompose(WithoutPath(Split(normalized).value))
  }

  // ---- Split and recompose --------------------------------------------------------

  lemma LowerIsLower(s: string)
    ensures |Lower(s)| == |s|
    ensures forall i | 0 <= i < |s| :: !('A' <= Lower(s)[i] <= 'Z')
    ensures forall i | 0 <= i < |s| ::
      Lower(s)[i] == s[i] || ('A' <= s[i] <= 'Z' && Lower(s)[i] as int == s[i] as int + 32)
  {
  }

  predicate HierOk(h: Hier) {
    match h
    case Opaque(text) => !("/" <= text)
    case NoAuthority(path) => "/" <= path && !("//" <= path)
    case Authority(authority, path) =>
      Lacks(authority, '/') && (path == "" || path[0] == '/') && (authority != "" || path != "")
  }

  /** Components that a printed URL can be split into again. */
  predicate WellFormed(u: Url) {
    && IsScheme(u.scheme) && Lower(u.scheme) == u.scheme
    && HierOk(u.hier)
    && Lacks(PrintHier(u.hier), '?') && Lacks(PrintHier(u.hier), '#')
    && (u.query.Some? ==> Lacks(u.query.value, '#'))
  }

  lemma CutAt(a: string, c: char, b: string)
    requires Lacks(a, c)
    ensures Before(a + [c] + b, c) == a && After(a + [c] + b, c) == Some(b)
    ensures Before(a, c) == a && After(a, c) == None
  {
    var s := a + [c] + b;
    assert s[..|a|] == a;
    IndexIsFirst(s, c, |a|);
    assert s[|a| + 1..] == b;
  }

  lemma HierRoundTrip(h: Hier)
    requires HierOk(h)
    ensures SplitHier(PrintHier(h)) == h
  {
    if h.Authority? {
      var s := PrintHier(h);
      assert s[2..] == h.authority + h.path;
      if h.path != "" {
        assert (h.authority + h.path)[..|h.authority|] == h.authority;
        IndexIsFirst(h.authority + h.path, '/', |h.authority|);
      } else {
        assert h.authority + h.path == h.authority;
      }
    }
  }

  lemma HierQueryCut(hier: string, q: Option<string>)
    requires Lacks(hier, '?')
    ensures Before(hier + PrintQuery(q), '?') == hier && After(hier + PrintQuery(q), '?') == q
  {
    if q.Some? {
      assert hier + PrintQuery(q) == hier + ['?'] + q.value;
      CutAt(hier, '?', q.value);
    } else {
      assert hier + PrintQuery(q) == hier;
      CutAt(hier, '?', "");
    }
  }

  lemma FragmentCut(front: string, f: string)
    requires Lacks(front, '#')
    ensures Before(front + PrintFragment(f), '#') == front
    ensures After(front + PrintFragment(f), '#') == if f == "" then None else Some(f)
  {
    if f != "" {
      assert front + PrintFragment(f) == front + ['#'] + f;
      CutAt(front, '#', f);
    } else {
      assert front + PrintFragment(f) == front;
      CutAt(front, '#', "");
    }
  }

  /** Splitting gives back the components of a printed URL. */
  lemma SplitOfRecompose(u: Url)
    requires WellFormed(u)
    ensures Split(Recompose(u)) == Some(u)
  {
    hide Before, After, SplitHier, PrintHier, Lower, HierOk;
    var rest := PrintHier(u.hier) + PrintQuery(u.query);
    var front := u.scheme + [':'] + rest;
    assert Recompose(u) == front + PrintFragment(u.fragment);
    assert Lacks(u.scheme, '#') && Lacks(u.scheme, ':');
    assert Lacks(front, '#');
    FragmentCut(front, u.fragment);
    CutAt(u.scheme, ':', rest);
    HierQueryCut(PrintHier(u.hier), u.query);
    HierRoundTrip(u.hier);
  }

  lemma CutRestores(s: string, c: char)
    ensures s == Before(s, c) + if After(s, c).None? then "" else [c] + After(s, c).value
  {
  }

  lemma HierRestores(s: string)
    requires s != "//"
    ensures PrintHier(SplitHier(s)) == s
  {
    if "//" <= s { assert s == "//" + s[2..]; }
  }

  /** Putting the components together gives back the URL, with its scheme in lower
      case, unless an empty fragment or an empty authority without a path was cut
      off. */
  lemma RecomposeOfSplit(s: string, u: Url)
    requires Split(s) == Some(u)
    requires After(s, '#') != Some("") && u.hier != Authority("", "")
    ensures Recompose(u) == u.scheme + s[|u.scheme|..] && u.scheme == Lower(s[..|u.scheme|])
  {
    hide Before, After, SplitHier, PrintHier;
    var front := Before(s, '#');
    CutRestores(s, '#');
    CutRestores(front, ':');
    var scheme, rest := Before(front, ':'), After(front, ':').value;
    CutRestores(rest, '?');
    if Before(rest, '?') == "//" { AuthorityAlone(); }
    HierRestores(Before(rest, '?'));
    assert rest == PrintHier(u.hier) + PrintQuery(u.query);
    assert s == scheme + (":" + rest + PrintFragment(u.fragment));
    assert |scheme| == |Lower(scheme)|;
    assert s[..|scheme|] == scheme && s[|scheme|..] == ":" + rest + PrintFragment(u.fragment);
    assert Recompose(u) == u.scheme + (":" + rest + PrintFragment(u.fragment));
  }

  lemma AuthorityAlone()
    ensures SplitHier("//") == Authority("", "")
  {
  }

  lemma LowerKeepsScheme(s: string)
    requires IsScheme(s)
    ensures IsScheme(Lower(s)) && Lower(Lower(s)) == Lower(s)
  {
    assert forall i | 0 <= i < |s| :: Lower(s)[i] == LowerChar(s[i]);
  }

  lemma CutLacks(s: string, c: char)
    ensures Lacks(Before(s, c), c)
    ensures forall d :: Lacks(s, d) ==> Lacks(Before(s, c), d) && (After(s, c).Some? ==> Lacks(After(s, c).value, d))
  {
  }

  lemma ClearedHierOk(s: string)
    requires Lacks(s, '?') && Lacks(s, '#')
    ensures var h := ClearedHier(SplitHier(s));
            Lacks(PrintHier(h), '?') && Lacks(PrintHier(h), '#') && (PrintHier(h) != "" ==> HierOk(h))
  {
    if "//" <= s {
      var h := SplitHier(s);
      assert forall i | 0 <= i < |h.authority| :: h.authority[i] == s[2 + i];
      assert PrintHier(ClearedHier(h)) == "" || PrintHier(ClearedHier(h)) == s[..2 + |h.authority|];
    }
  }

  /** The components of a split URL without its path can be split again, unless
      nothing is left after the scheme. */
  lemma WithoutPathWellFormed(s: string)
    requires Split(s).Some?
    ensures var u := WithoutPath(Split(s).value);
            PrintHier(u.hier) != "" ==> WellFormed(u)
    ensures var u := WithoutPath(Split(s).value);
            PrintHier(u.hier) == "" ==> WellFormed(u.(hier := Opaque("")))
  {
    hide Before, After, SplitHier, PrintHier, Lower, HierOk, IsScheme;
    var front := Before(s, '#');
    CutLacks(s, '#');
    CutLacks(front, ':');
    var scheme, rest := Before(front, ':'), After(front, ':').value;
    LowerKeepsScheme(scheme);
    CutLacks(rest, '?');
    ClearedHierOk(Before(rest, '?'));
    NothingIsOk();
  }

  lemma NothingIsOk()
    ensures HierOk(Opaque("")) && PrintHier(Opaque("")) == ""
  {
  }

  // ---- The path is cleared, nothing else ---------------------------------------------

  /** The rewritten URL has the scheme in lower case, the authority, the query and
      the fragment of the normalized one, and an empty path. */
  lemma PathCleared(lib: Library, raw: string, u: Url)
    requires lib.parses(NormalizeHTTPURL(lib, raw)) && Split(NormalizeHTTPURL(lib, raw)) == Some(u)
    requires u.hier.Authority? && u.hier.authority != ""
    ensures Split(IgnitionEndpointURLForACI(lib, raw)) == Some(u.(hier := Authority(u.hier.authority, "")))
  {
    hide NormalizeHTTPURL, Split, Recompose, WellFormed;
    WithoutPathWellFormed(NormalizeHTTPURL(lib, raw));
    SplitOfRecompose(WithoutPath(u));
  }

  /** Otherwise: a URL that does not parse or has no scheme is only normalized; a path
      without an authority is cleared too; and what follows the scheme of an opaque URL
      stays. */
  lemma OtherCases(lib: Library, raw: string)
    ensures var n := NormalizeHTTPURL(lib, raw);
            !lib.parses(n) || Split(n).None? ==> IgnitionEndpointURLForACI(lib, raw) == n
    ensures var n := NormalizeHTTPURL(lib, raw);
            lib.parses(n) && Split(n).Some? && Split(n).value.hier.NoAuthority? ==>
              var u := Split(n).value;
              IgnitionEndpointURLForACI(lib, raw) == u.scheme + ":" + PrintQuery(u.query) + PrintFragment(u.fragment)
    ensures var n := NormalizeHTTPURL(lib, raw);
            lib.parses(n) && Split(n).Some? && Split(n).value.hier.Opaque? ==>
              Split(IgnitionEndpointURLForACI(lib, raw)) == Split(n)
  {
    hide NormalizeHTTPURL, Before, After, SplitHier, WellFormed;
    var n := NormalizeHTTPURL(lib, raw);
    if lib.parses(n) && Split(n).Some? {
      var u := Split(n).value;
      assert u.hier.NoAuthority? ==> u.scheme + ":" + "" == u.scheme + ":";
      if u.hier.Opaque? {
        WithoutPathWellFormed(n);
        assert WithoutPath(u) == u;
        if PrintHier(u.hier) == "" { assert u.(hier := Opaque("")) == u; }
        SplitOfRecompose(u);
      }
    }
  }

  /** What is printed without a path splits into components that print the same. */
  lemma PrintedAgain(s: string)
    requires Split(s).Some?
    ensures var out := Recompose(WithoutPath(Split(s).value));
            Split(out).Some? && Recompose(WithoutPath(Split(out).value)) == out
  {
    hide Split, SplitHier, WellFormed;
    var u := WithoutPath(Split(s).value);
    WithoutPathWellFormed(s);
    if PrintHier(u.hier) != "" {
      SplitOfRecompose(u);
    } else {
      SplitOfRecompose(u.(hier := Opaque("")));
    }
  }

  /** Rewriting twice is rewriting once, if the parser accepts what it printed. */
  lemma ForACIIdempotent(lib: Library, raw: string)
    requires lib.parses(NormalizeHTTPURL(lib, raw)) ==> lib.parses(IgnitionEndpointURLForACI(lib, raw))
    ensures var out := IgnitionEndpointURLForACI(lib, raw);
            IgnitionEndpointURLForACI(lib, out) == out
  {
    hide Split, Recompose, WithoutPath, Index, LastIndex, IndexOf;
    var n := NormalizeHTTPURL(lib, raw);
    NormalizeIdempotent(lib, raw);
    if lib.parses(n) && Split(n).Some? {
      PrintedAgain(n);
    }
  }
}
