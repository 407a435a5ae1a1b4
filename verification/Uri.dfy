/** Splitting a URI with the regular expression of Appendix B of RFC 3986,
    `^(([^:/?#]+):)?(//([^/?#]*))?([^?#]*)(\?([^#]*))?(#(.*))?`, matched against
    the whole text; and putting it together again as in section 5.3. */
module Uri {

  /** The character classes that end a group; a dot ends at a line break. */
  datatype Class = SchemeEnd | AuthorityEnd | PathEnd | QueryEnd | LineEnd

  predicate Stops(k: Class, c: char) {
    match k
    case SchemeEnd => c == ':' || c == '/' || c == '?' || c == '#'
    case AuthorityEnd => c == '/' || c == '?' || c == '#'
    case PathEnd => c == '?' || c == '#'
    case QueryEnd => c == '#'
    case LineEnd => c == '\n' || c == '\r'
  }

  predicate Free(s: string, k: Class) {
    forall i :: 0 <= i < |s| ==> !Stops(k, s[i])
  }

  /** A group that took part in the match, or did not. */
  datatype Group = Unmatched | Matched(text: string)

  datatype Groups = Groups(scheme: Group, authority: Group, path: string, query: Group, fragment: Group)

  datatype Match = Accepted(groups: Groups) | Rejected

  /** A group and the text after it. */
  datatype Cut = Cut(group: Group, rest: string)

  // --- The match, by its definition ---

  predicate InClasses(g: Groups) {
    && (g.scheme.Matched? ==> g.scheme.text != "" && Free(g.scheme.text, SchemeEnd))
    && (g.authority.Matched? ==> Free(g.authority.text, AuthorityEnd))
    && Free(g.path, PathEnd)
    && (g.query.Matched? ==> Free(g.query.text, QueryEnd))
    && (g.fragment.Matched? ==> Free(g.fragment.text, LineEnd))
  }

  function SchemePart(g: Group): string { if g.Matched? then g.text + [':'] else "" }
  function AuthorityPart(g: Group): string { if g.Matched? then ['/', '/'] + g.text else "" }
  function QueryPart(g: Group): string { if g.Matched? then ['?'] + g.text else "" }
  function FragmentPart(g: Group): string { if g.Matched? then ['#'] + g.text else "" }

  // Section 5.3 of RFC 3986, one group at a time.
  function FromQuery(g: Groups): string { QueryPart(g.query) + FragmentPart(g.fragment) }
  function FromPath(g: Groups): string { g.path + FromQuery(g) }
  function FromAuthority(g: Groups): string { AuthorityPart(g.authority) + FromPath(g) }
  function Recompose(g: Groups): string { SchemePart(g.scheme) + FromAuthority(g) }

  /** `g` is one way the expression can match all of `s`. */
  predicate IsMatch(s: string, g: Groups) {
    InClasses(g) && s == Recompose(g)
  }

  /** Tried earlier: an optional group before its absence, a longer one before a
      shorter one. */
  predicate Earlier(a: Group, b: Group) {
    a.Matched? && (b.Unmatched? || |a.text| > |b.text|)
  }

  /** Backtracking order: the first group on which two matches differ decides. */
  predicate Before(g: Groups, h: Groups) {
    Earlier(g.scheme, h.scheme) ||
    (g.scheme == h.scheme &&
     (Earlier(g.authority, h.authority) ||
      (g.authority == h.authority &&
       (|g.path| > |h.path| ||
        (g.path == h.path &&
         (Earlier(g.query, h.query) ||
          (g.query == h.query && Earlier(g.fragment, h.fragment))))))))
  }

  // --- A scanner for it ---

  function Span(s: string, k: Class): (n: nat)
    ensures n <= |s| && Free(s[..n], k)
    ensures n < |s| ==> Stops(k, s[n])
  {
    if s == "" || Stops(k, s[0]) then 0
    else
      var n := 1 + Span(s[1..], k);
      assert forall i :: 0 < i < n ==> s[..n][i] == s[1..][..n - 1][i - 1];
      n
  }

  function CutScheme(s: string): Cut {
    var n := Span(s, SchemeEnd);
    if 0 < n < |s| && s[n] == ':' then Cut(Matched(s[..n]), s[n + 1..]) else Cut(Unmatched, s)
  }

  predicate SlashSlash(s: string) {
    |s| >= 2 && s[0] == '/' && s[1] == '/'
  }

  function CutAuthority(s: string): Cut {
    if SlashSlash(s) then
      var n := Span(s[2..], AuthorityEnd);
      Cut(Matched(s[2..][..n]), s[2..][n..])
    else Cut(Unmatched, s)
  }

  function CutQuery(s: string): Cut {
    if s != "" && s[0] == '?' then
      var n := Span(s[1..], QueryEnd);
      Cut(Matched(s[1..][..n]), s[1..][n..])
    else Cut(Unmatched, s)
  }

  /** parse_uri up to the match: each group as long as it can be. Only a line break
      in the fragment keeps the whole text from matching. */
  function Parse(s: string): Match {
    var a := CutScheme(s);
    var b := CutAuthority(a.rest);
    var n := Span(b.rest, PathEnd);
    var c := CutQuery(b.rest[n..]);
    var path := b.rest[..n];
    if c.rest == "" then Accepted(Groups(a.group, b.group, path, c.group, Unmatched))
    else if Free(c.rest[1..], LineEnd) then Accepted(Groups(a.group, b.group, path, c.group, Matched(c.rest[1..])))
    else Rejected
  }

  lemma Halves(s: string, n: nat)
    requires n <= |s|
    ensures s == s[..n] + s[n..]
  {
  }

  // --- Each cut is the earliest choice ---

  /** A prefix free of stops is no longer than the span. */
  lemma {:induction false} SpanLongest(t: string, u: string, k: Class)
    requires Free(t, k)
    ensures |t| <= Span(t + u, k)
    ensures u == "" || Stops(k, u[0]) ==> Span(t + u, k) == |t|
  {
    if t != "" {
      assert (t + u)[1..] == t[1..] + u;
      SpanLongest(t[1..], u, k);
    } else {
      assert t + u == u;
    }
  }

  lemma SchemeEarliest(g: Group, rest: string)
    requires g.Matched? ==> g.text != "" && Free(g.text, SchemeEnd)
    ensures var c := CutScheme(SchemePart(g) + rest);
            c == Cut(g, rest) || (g.Unmatched? && c.group.Matched?)
  {
    if g.Matched? {
      assert SchemePart(g) + rest == g.text + ([':'] + rest);
      SpanLongest(g.text, [':'] + rest, SchemeEnd);
      assert (g.text + ([':'] + rest))[|g.text| + 1..] == rest;
    } else {
      assert SchemePart(g) + rest == rest;
    }
  }

  lemma AuthorityEarliest(g: Group, rest: string)
    requires g.Matched? ==> Free(g.text, AuthorityEnd)
    ensures var c := CutAuthority(AuthorityPart(g) + rest);
            (c.group == g && c.rest == rest) || Earlier(c.group, g)
  {
    if g.Matched? {
      var s := AuthorityPart(g) + rest;
      assert s[2..] == g.text + rest;
      SpanLongest(g.text, rest, AuthorityEnd);
      assert (g.text + rest)[..|g.text|] == g.text && (g.text + rest)[|g.text|..] == rest;
    } else {
      assert AuthorityPart(g) + rest == rest;
    }
  }

  lemma QueryEarliest(g: Group, rest: string)
    requires g.Matched? ==> Free(g.text, QueryEnd)
    ensures var c := CutQuery(QueryPart(g) + rest);
            (c.group == g && c.rest == rest) || Earlier(c.group, g)
  {
    if g.Matched? {
      var s := QueryPart(g) + rest;
      assert s[1..] == g.text + rest;
      SpanLongest(g.text, rest, QueryEnd);
      assert (g.text + rest)[..|g.text|] == g.text && (g.text + rest)[|g.text|..] == rest;
    } else {
      assert QueryPart(g) + rest == rest;
    }
  }

  // --- What follows the first hash decides acceptance ---

  /** From the first hash on; empty when there is none. */
  function HashTail(s: string): (tail: string)
    ensures tail == "" || tail[0] == '#'
  {
    s[Span(s, QueryEnd)..]
  }

  lemma {:induction false} SpanSkips(t: string, u: string, k: Class)
    requires Free(t, k)
    ensures Span(t + u, k) == |t| + Span(u, k)
  {
    if t != "" {
      assert (t + u)[1..] == t[1..] + u;
      SpanSkips(t[1..], u, k);
    } else {
      assert t + u == u;
    }
  }

  lemma HashTailSkips(t: string, u: string)
    requires Free(t, QueryEnd)
    ensures HashTail(t + u) == HashTail(u)
  {
    SpanSkips(t, u, QueryEnd);
  }

  lemma SchemeCutFacts(s: string)
    ensures var c := CutScheme(s);
            && s == SchemePart(c.group) + c.rest && Free(SchemePart(c.group), QueryEnd)
            && (c.group.Matched? ==> c.group.text != "" && Free(c.group.text, SchemeEnd))
  {
  }

  lemma Slashes(s: string, u: string, v: string)
    requires SlashSlash(s) && s[2..] == u + v && Free(u, AuthorityEnd)
    ensures s == ['/', '/'] + u + v && Free(['/', '/'] + u, QueryEnd)
  {
    assert s == ['/', '/'] + s[2..];
    assert Free(u, QueryEnd);
  }

  lemma AuthorityCutFacts(s: string)
    ensures var c := CutAuthority(s);
            && s == AuthorityPart(c.group) + c.rest && Free(AuthorityPart(c.group), QueryEnd)
            && (c.group.Matched? ==> Free(c.group.text, AuthorityEnd))
  {
    if SlashSlash(s) {
      var n := Span(s[2..], AuthorityEnd);
      hide Span, SlashSlash, Free, Stops;
      Halves(s[2..], n);
      Slashes(s, s[2..][..n], s[2..][n..]);
    }
  }

  lemma QuestionMark(s: string, u: string, v: string)
    requires s != "" && s[0] == '?' && s[1..] == u + v && Free(u, QueryEnd)
    ensures s == ['?'] + u + v && Free(['?'] + u, QueryEnd)
  {
    assert s == ['?'] + s[1..];
  }

  lemma QueryCutFacts(s: string)
    requires s == "" || Stops(PathEnd, s[0])
    ensures var c := CutQuery(s);
            && s == QueryPart(c.group) + c.rest && Free(QueryPart(c.group), QueryEnd)
            && (c.group.Matched? ==> Free(c.group.text, QueryEnd))
            && (c.rest == "" || c.rest[0] == '#')
  {
    if s != "" && s[0] == '?' {
      var n := Span(s[1..], QueryEnd);
      hide Span, Free;
      Halves(s[1..], n);
      QuestionMark(s, s[1..][..n], s[1..][n..]);
    }
  }

  /** No cut takes a hash. */
  lemma SchemeTail(s: string)
    ensures HashTail(CutScheme(s).rest) == HashTail(s)
  {
    var c := CutScheme(s);
    SchemeCutFacts(s);
    hide CutScheme, SchemePart, HashTail;
    HashTailSkips(SchemePart(c.group), c.rest);
  }

  lemma AuthorityTail(s: string)
    ensures HashTail(CutAuthority(s).rest) == HashTail(s)
  {
    var c := CutAuthority(s);
    AuthorityCutFacts(s);
    hide CutAuthority, AuthorityPart, HashTail;
    HashTailSkips(AuthorityPart(c.group), c.rest);
  }

  lemma PathTail(s: string)
    ensures var n := Span(s, PathEnd); HashTail(s[n..]) == HashTail(s)
  {
    var n := Span(s, PathEnd);
    assert Free(s[..n], QueryEnd);
    hide HashTail, Span;
    HashTailSkips(s[..n], s[n..]);
    Halves(s, n);
  }

  lemma QueryTail(s: string)
    requires s == "" || Stops(PathEnd, s[0])
    ensures CutQuery(s).rest == HashTail(s)
  {
    var c := CutQuery(s);
    QueryCutFacts(s);
    assert c.rest == HashTail(c.rest);
    hide CutQuery, QueryPart, HashTail;
    HashTailSkips(QueryPart(c.group), c.rest);
  }

  /** All the cuts of the scanner: what is left for the fragment is the hash tail. */
  lemma ParseCuts(s: string)
    ensures var a := CutScheme(s);
            var b := CutAuthority(a.rest);
            var n := Span(b.rest, PathEnd);
            CutQuery(b.rest[n..]).rest == HashTail(s)
  {
    var a := CutScheme(s);
    var b := CutAuthority(a.rest);
    var n := Span(b.rest, PathEnd);
    hide CutScheme, CutAuthority, CutQuery, HashTail;
    SchemeTail(s);
    AuthorityTail(a.rest);
    PathTail(b.rest);
    QueryTail(b.rest[n..]);
  }

  /** A text is accepted exactly when no line break follows its first hash. */
  lemma AcceptedIff(s: string)
    ensures Parse(s).Accepted? <==> HashTail(s) == "" || Free(HashTail(s)[1..], LineEnd)
  {
    ParseCuts(s);
    hide CutScheme, CutAuthority, CutQuery, HashTail, Span;
  }

  /** The cut behind the path. */
  lemma TailFacts(s: string, g: Groups)
    requires s == "" || Stops(PathEnd, s[0])
    requires var c := CutQuery(s);
             && g.query == c.group
             && (if c.rest == "" then g.fragment == Unmatched
                 else g.fragment == Matched(c.rest[1..]) && Free(c.rest[1..], LineEnd))
    ensures s == FromQuery(g)
    ensures g.query.Matched? ==> Free(g.query.text, QueryEnd)
    ensures g.fragment.Matched? ==> Free(g.fragment.text, LineEnd)
  {
    var c := CutQuery(s);
    QueryCutFacts(s);
    hide CutQuery, QueryPart, Free;
    if c.rest != "" { assert c.rest == ['#'] + c.rest[1..]; }
  }

  /** What the scanner answers is a match of the whole text: recomposing the groups
      gives the text back, for every accepted text. */
  lemma ParseMatches(s: string)
    requires Parse(s).Accepted?
    ensures IsMatch(s, Parse(s).groups)
  {
    var g := Parse(s).groups;
    var a := CutScheme(s);
    var b := CutAuthority(a.rest);
    var n := Span(b.rest, PathEnd);
    assert g.scheme == a.group && g.authority == b.group && g.path == b.rest[..n];
    TailFacts(b.rest[n..], g);
    SchemeCutFacts(s);
    AuthorityCutFacts(a.rest);
    assert Free(g.path, PathEnd);
    Halves(b.rest, n);
    hide Parse, CutScheme, CutAuthority, CutQuery, Span, SchemePart, AuthorityPart, FromQuery, Free, Stops;
  }

  /** In every match the fragment is what follows the first hash. */
  lemma MatchTail(s: string, g: Groups)
    requires IsMatch(s, g)
    ensures HashTail(s) == FragmentPart(g.fragment)
  {
    HashTailSkips(SchemePart(g.scheme), FromAuthority(g));
    HashTailSkips(AuthorityPart(g.authority), FromPath(g));
    HashTailSkips(g.path, FromQuery(g));
    HashTailSkips(QueryPart(g.query), FragmentPart(g.fragment));
  }

  /** The path cut, against any other way to cut. */
  lemma PathEarliest(path: string, rest: string)
    requires Free(path, PathEnd)
    ensures var n := Span(path + rest, PathEnd);
            ((path + rest)[..n] == path && (path + rest)[n..] == rest) || n > |path|
  {
    SpanLongest(path, rest, PathEnd);
  }

  /** The scanner is the leftmost-greedy match: if the text can be matched at all
      it is accepted, and its answer comes, in backtracking order, before every
      other match. */
  lemma ParseIsLeftmostGreedy(s: string, h: Groups)
    requires IsMatch(s, h)
    ensures Parse(s).Accepted? && (Parse(s).groups == h || Before(Parse(s).groups, h))
  {
    MatchTail(s, h);
    AcceptedIff(s);
    assert HashTail(s) != "" ==> HashTail(s)[1..] == h.fragment.text;
    ParseCuts(s);
    var a := CutScheme(s);
    var b := CutAuthority(a.rest);
    var n := Span(b.rest, PathEnd);
    SchemeEarliest(h.scheme, FromAuthority(h));
    AuthorityEarliest(h.authority, FromPath(h));
    PathEarliest(h.path, FromQuery(h));
    QueryEarliest(h.query, FragmentPart(h.fragment));
    hide CutScheme, CutAuthority, CutQuery, Span, HashTail, SchemePart, AuthorityPart, QueryPart;
    assert Parse(s).groups.scheme == a.group && Parse(s).groups.authority == b.group;
    assert Parse(s).groups.path == b.rest[..n] && Parse(s).groups.query == CutQuery(b.rest[n..]).group;
    assert Parse(s).groups.fragment == h.fragment;
  }

  // --- Parsing what was recomposed ---

  /** The text would be taken to begin with a scheme. */
  predicate SchemeLike(s: string) {
    var n := Span(s, SchemeEnd);
    0 < n < |s| && s[n] == ':'
  }

  /** The path constraints: after an authority the path is empty or begins with a
      slash; without one it does not begin with two; and without scheme and authority
      it has no colon in a first segment that is not empty before it. */
  predicate PathFits(g: Groups) {
    && (g.authority.Matched? ==> g.path == "" || g.path[0] == '/')
    && (g.authority.Unmatched? ==> !SlashSlash(g.path))
    && (g.scheme.Unmatched? && g.authority.Unmatched? ==> !SchemeLike(g.path))
  }

  /** Nothing that follows the path can make a scheme of it. */
  lemma SchemeLikeExtends(p: string, q: string)
    requires q == "" || Stops(PathEnd, q[0])
    ensures SchemeLike(p + q) <==> SchemeLike(p)
  {
    var n := Span(p, SchemeEnd);
    Halves(p, n);
    assert p + q == p[..n] + (p[n..] + q);
    SpanLongest(p[..n], p[n..] + q, SchemeEnd);
  }

  lemma SchemeLikePath(g: Groups)
    requires InClasses(g)
    ensures SchemeLike(FromAuthority(g)) <==> g.authority.Unmatched? && SchemeLike(g.path)
  {
    if g.authority.Matched? {
      assert FromAuthority(g)[0] == '/';
    } else {
      assert FromAuthority(g) == g.path + FromQuery(g);
      hide SchemeLike;
      SchemeLikeExtends(g.path, FromQuery(g));
    }
  }

  lemma SchemeCutIff(g: Groups)
    requires InClasses(g)
    ensures CutScheme(Recompose(g)) == Cut(g.scheme, FromAuthority(g))
       <==> (g.scheme.Unmatched? && g.authority.Unmatched? ==> !SchemeLike(g.path))
  {
    SchemeEarliest(g.scheme, FromAuthority(g));
    SchemeLikePath(g);
    if g.scheme.Unmatched? { assert Recompose(g) == FromAuthority(g); }
  }

  lemma AuthorityCut(text: string, rest: string)
    requires Free(text, AuthorityEnd)
    ensures CutAuthority(['/', '/'] + text + rest) == Cut(Matched(text), rest)
       <==> rest == "" || Stops(AuthorityEnd, rest[0])
  {
    var s := ['/', '/'] + text + rest;
    assert s[2..] == text + rest;
    SpanSkips(text, rest, AuthorityEnd);
    assert (text + rest)[..|text|] == text && (text + rest)[|text|..] == rest;
  }

  lemma AuthorityCutIff(g: Groups)
    requires InClasses(g)
    ensures CutAuthority(FromAuthority(g)) == Cut(g.authority, FromPath(g))
       <==> if g.authority.Matched? then g.path == "" || g.path[0] == '/' else !SlashSlash(g.path)
  {
    var rest := FromPath(g);
    assert FromQuery(g) == "" || Stops(PathEnd, FromQuery(g)[0]);
    if g.authority.Matched? {
      assert FromAuthority(g) == ['/', '/'] + g.authority.text + rest;
      AuthorityCut(g.authority.text, rest);
      hide CutAuthority;
      if g.path != "" { assert rest[0] == g.path[0] && !Stops(PathEnd, g.path[0]); }
    } else {
      assert FromAuthority(g) == rest;
    }
  }

  lemma PathCut(g: Groups)
    requires InClasses(g)
    ensures Span(FromPath(g), PathEnd) == |g.path|
    ensures FromPath(g)[..|g.path|] == g.path && FromPath(g)[|g.path|..] == FromQuery(g)
    ensures CutQuery(FromQuery(g)) == Cut(g.query, FragmentPart(g.fragment))
  {
    SpanLongest(g.path, FromQuery(g), PathEnd);
    if g.query.Matched? {
      assert FromQuery(g)[1..] == g.query.text + FragmentPart(g.fragment);
      SpanLongest(g.query.text, FragmentPart(g.fragment), QueryEnd);
    } else {
      assert FromQuery(g) == FragmentPart(g.fragment);
    }
  }

  lemma FittingParses(g: Groups)
    requires InClasses(g) && PathFits(g)
    ensures Parse(Recompose(g)) == Accepted(g)
  {
    SchemeCutIff(g);
    AuthorityCutIff(g);
    PathCut(g);
    hide CutScheme, CutAuthority, CutQuery, Span, Recompose, FromAuthority, FromPath, FromQuery, SlashSlash, SchemeLike;
    assert FragmentPart(g.fragment) != "" ==> FragmentPart(g.fragment)[1..] == g.fragment.text;
  }

  /** A text that parses to `g` was cut where `g` was joined. */
  lemma ParsedCuts(g: Groups)
    requires Parse(Recompose(g)) == Accepted(g)
    ensures CutScheme(Recompose(g)) == Cut(g.scheme, FromAuthority(g))
    ensures CutAuthority(FromAuthority(g)) == Cut(g.authority, FromPath(g))
  {
    var s := Recompose(g);
    assert CutScheme(s).group == g.scheme && CutAuthority(CutScheme(s).rest).group == g.authority;
    SchemeCutFacts(s);
    AuthorityCutFacts(FromAuthority(g));
    RecomposeIs(g);
    hide *;
    SameRest(SchemePart(g.scheme), CutScheme(s).rest, FromAuthority(g));
    SameRest(AuthorityPart(g.authority), CutAuthority(FromAuthority(g)).rest, FromPath(g));
  }

  /** Parsing a recomposed tuple of components gives the tuple back exactly when its
      path meets the constraints. */
  lemma ParseRecomposeIff(g: Groups)
    requires InClasses(g)
    ensures Parse(Recompose(g)) == Accepted(g) <==> PathFits(g)
  {
    hide Parse, CutScheme, CutAuthority, Recompose, FromAuthority, FromPath, InClasses, SlashSlash, SchemeLike;
    if PathFits(g) {
      FittingParses(g);
    } else if Parse(Recompose(g)) == Accepted(g) {
      ParsedCuts(g);
      SchemeCutIff(g);
      AuthorityCutIff(g);
      assert false;
    }
  }

  lemma RecomposeIs(g: Groups)
    ensures Recompose(g) == SchemePart(g.scheme) + FromAuthority(g)
    ensures FromAuthority(g) == AuthorityPart(g.authority) + FromPath(g)
  {
  }

  lemma SameRest(front: string, u: string, v: string)
    requires front + u == front + v
    ensures u == v
  {
    assert u == (front + u)[|front|..] && v == (front + v)[|front|..];
  }

  // --- The program's result ---

  /** `Uri`: an unmatched group reads as the empty text. */
  datatype Uri = Uri(scheme: string, authority: string, path: string, query: string, fragment: string)

  datatype Result = Ok(uri: Uri) | NotAValidUri

  function TextOf(g: Group): string { if g.Matched? then g.text else "" }

  function UriOf(g: Groups): Uri {
    Uri(TextOf(g.scheme), TextOf(g.authority), g.path, TextOf(g.query), TextOf(g.fragment))
  }

  function ParseUri(s: string): Result {
    match Parse(s)
    case Accepted(g) => Ok(UriOf(g))
    case Rejected => NotAValidUri
  }

  function Present(text: string): Group { if text == "" then Unmatched else Matched(text) }

  function RecomposeUri(u: Uri): string {
    Recompose(Groups(Present(u.scheme), Present(u.authority), u.path, Present(u.query), Present(u.fragment)))
  }

  predicate NoEmptyGroup(g: Groups) {
    g.authority != Matched("") && g.query != Matched("") && g.fragment != Matched("")
  }

  /** What parse_uri answers, which does not say whether a group took part, gives the
      text back exactly when no group was matched empty; it is no URI exactly when a
      line break follows the first hash. */
  lemma UriKeepsTextIff(s: string)
    ensures ParseUri(s).Ok? ==> (RecomposeUri(ParseUri(s).uri) == s <==> NoEmptyGroup(Parse(s).groups))
    ensures ParseUri(s) == NotAValidUri <==> HashTail(s) != "" && !Free(HashTail(s)[1..], LineEnd)
  {
    AcceptedIff(s);
    if Parse(s).Accepted? { GroupsKeepTextIff(s); }
    hide Parse, HashTail, Free, RecomposeUri;
  }

  lemma GroupsKeepTextIff(s: string)
    requires Parse(s).Accepted?
    ensures RecomposeUri(UriOf(Parse(s).groups)) == s <==> NoEmptyGroup(Parse(s).groups)
  {
    ParseMatches(s);
    var g := Parse(s).groups;
    hide Parse;
    var t := RecomposeUri(UriOf(g));
    assert |s| == |SchemePart(g.scheme)| + |AuthorityPart(g.authority)| + |g.path|
                + |QueryPart(g.query)| + |FragmentPart(g.fragment)|;
    assert |t| == |s| - (if g.authority == Matched("") then 2 else 0) - (if g.query == Matched("") then 1 else 0)
                      - (if g.fragment == Matched("") then 1 else 0);
    if NoEmptyGroup(g) {
      assert Present(TextOf(g.scheme)) == g.scheme && Present(TextOf(g.authority)) == g.authority;
      assert Present(TextOf(g.query)) == g.query && Present(TextOf(g.fragment)) == g.fragment;
    }
  }

  /** What the program reads from a well-formed text: each of the five strings is the
      text of that component, or empty where there was none. */
  lemma ComponentsAreRead(g: Groups)
    requires InClasses(g) && PathFits(g)
    ensures var r := ParseUri(Recompose(g));
            && r.Ok?
            && r.uri.scheme == (if g.scheme.Matched? then g.scheme.text else "")
            && r.uri.authority == (if g.authority.Matched? then g.authority.text else "")
            && r.uri.path == g.path
            && r.uri.query == (if g.query.Matched? then g.query.text else "")
            && r.uri.fragment == (if g.fragment.Matched? then g.fragment.text else "")
  {
    FittingParses(g);
    hide Parse, Recompose;
  }

  /** The path of a file: whatever follows the two slashes, if it begins with a third
      and has neither question mark nor hash. */
  lemma FilePathIsRead(path: string)
    requires path != "" && path[0] == '/' && forall i :: 0 <= i < |path| ==> path[i] != '?' && path[i] != '#'
    ensures ParseUri("file://" + path) == Ok(Uri("file", "", path, "", ""))
  {
    var g := Groups(Matched("file"), Matched(""), path, Unmatched, Unmatched);
    assert Recompose(g) == "file://" + path;
    assert InClasses(g) && PathFits(g);
    hide Parse, Recompose, InClasses, PathFits;
    ComponentsAreRead(g);
  }
}
