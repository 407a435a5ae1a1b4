/** Splitting an AppArmor profile name into package and application. */
module AppId {

  predicate OneLine(s: string) {
    forall i :: 0 <= i < |s| ==> s[i] != '\n' && s[i] != '\r'
  }

  predicate Has(s: string, c: char) {
    exists i :: 0 <= i < |s| && s[i] == c
  }

  /** The groups of `(.*)_(.*)_(.*)`, of `(.*)_(.*)` or of `(.*)-(.*)`. */
  datatype Groups = NoMatch | Two(first: string, second: string) | Three(first: string, second: string, third: string)

  /** What `process_context_name` answers: the package name and the groups kept. */
  datatype Result = Refused | Named(package: string, groups: Groups)

  // --- Greedy matching, by its definition ---

  predicate MatchesTwo(s: string, c: char, p: string, q: string) {
    OneLine(s) && s == p + [c] + q
  }

  predicate MatchesThree(s: string, c: char, p: string, q: string, r: string) {
    OneLine(s) && s == p + [c] + q + [c] + r
  }

  // --- The match ---

  /** One more than the place of the last `c`; zero when there is none. */
  function PastLast(s: string, c: char): (n: nat)
    ensures n <= |s|
    ensures n > 0 ==> s[n - 1] == c
    ensures forall i :: n <= i < |s| ==> s[i] != c
  {
    if s == "" then 0
    else if s[|s| - 1] == c then |s|
    else PastLast(s[..|s| - 1], c)
  }

  function SplitTwo(s: string, c: char): Groups {
    var n := PastLast(s, c);
    if n == 0 || !OneLine(s) then NoMatch else Two(s[..n - 1], s[n..])
  }

  function SplitThree(s: string, c: char): Groups {
    match SplitTwo(s, c)
    case Two(front, third) => (
      match SplitTwo(front, c)
      case Two(first, second) => Three(first, second, third)
      case _ => NoMatch)
    case _ => NoMatch
  }

  /** The names let through without an underscore. */
  predicate Special(s: string) {
    || s == "messaging-app"
    || s == "unity8-dash"
    || s == "snap.unity8-session.unity8-session"
    || s == "snap.mediaplayer-app.mediaplayer-app"
    || s == "snap.music-app.music-app"
  }

  /** process_context_name. */
  function Process(s: string): Result {
    if Special(s) && SplitTwo(s, '-').Two? then Named(s, SplitTwo(s, '-'))
    else if SplitThree(s, '_').Three? then Named(SplitThree(s, '_').first, SplitThree(s, '_'))
    else if SplitTwo(s, '_').Two? then Named(SplitTwo(s, '_').first, SplitTwo(s, '_'))
    else Refused
  }

  /** Context::profile_name. */
  function ProfileName(g: Groups): string
    requires !g.NoMatch?
  {
    g.first + ['-'] + g.second
  }

  // --- The match is the greedy one ---

  /** The two-part match: whatever else matches has a shorter first part. */
  lemma SplitTwoIsGreedy(s: string, c: char, p: string, q: string)
    requires MatchesTwo(s, c, p, q)
    ensures var g := SplitTwo(s, c);
            g.Two? && MatchesTwo(s, c, g.first, g.second) && (|p| < |g.first| || (p == g.first && q == g.second))
  {
    var n := PastLast(s, c);
    assert s[|p|] == c;
    assert s == s[..n - 1] + [c] + s[n..];
    assert p == s[..|p|] && q == s[|p| + 1..];
  }

  /** Three parts: the first as long as it can be, then the second. */
  lemma SplitThreeIsGreedy(s: string, c: char, p: string, q: string, r: string)
    requires MatchesThree(s, c, p, q, r)
    ensures var g := SplitThree(s, c);
            && g.Three? && MatchesThree(s, c, g.first, g.second, g.third)
            && (|p| < |g.first| || (p == g.first && (|q| < |g.second| || (q == g.second && r == g.third))))
  {
    SplitTwoIsGreedy(s, c, p + [c] + q, r);
    var front := SplitTwo(s, c).first;
    hide SplitTwo;
    LongerFront(s, c, p, q, r, front, SplitTwo(s, c).second);
    SplitTwoIsGreedy(front, c, p, front[|p| + 1..]);
  }

  lemma LongerFront(s: string, c: char, p: string, q: string, r: string, front: string, t: string)
    requires MatchesThree(s, c, p, q, r) && s == front + [c] + t && |front| >= |p + [c] + q|
    ensures MatchesTwo(front, c, p, front[|p| + 1..]) && |q| <= |front[|p| + 1..]|
    ensures |q| == |front[|p| + 1..]| ==> q == front[|p| + 1..] && r == t
  {
    var n := |front|;
    assert front == s[..n] && t == s[n + 1..];
    assert p == s[..|p|] && s[|p|] == c;
    assert front == front[..|p|] + [front[|p|]] + front[|p| + 1..];
    assert q == s[|p| + 1..|p| + 1 + |q|] && r == s[|p| + |q| + 2..];
  }

  // --- Which names are let through ---

  predicate Plain(s: string) {
    Has(s, '-') && OneLine(s) && !Has(s, '_')
  }

  lemma MessagingIsPlain(s: string)
    requires s == "messaging-app"
    ensures Plain(s)
  {
    assert s[9] == '-';
  }

  lemma DashIsPlain(s: string)
    requires s == "unity8-dash"
    ensures Plain(s)
  {
    assert s[6] == '-';
  }

  lemma SessionIsPlain(s: string)
    requires s == "snap.unity8-session.unity8-session"
    ensures Plain(s)
  {
    assert s[11] == '-';
  }

  lemma MediaPlayerIsPlain(s: string)
    requires s == "snap.mediaplayer-app.mediaplayer-app"
    ensures Plain(s)
  {
    assert s[16] == '-';
  }

  lemma MusicIsPlain(s: string)
    requires s == "snap.music-app.music-app"
    ensures Plain(s)
  {
    assert s[10] == '-';
  }

  lemma SpecialsArePlain(s: string)
    requires Special(s)
    ensures Plain(s)
  {
    hide Plain;
    if s == "messaging-app" { MessagingIsPlain(s); }
    else if s == "unity8-dash" { DashIsPlain(s); }
    else if s == "snap.unity8-session.unity8-session" { SessionIsPlain(s); }
    else if s == "snap.mediaplayer-app.mediaplayer-app" { MediaPlayerIsPlain(s); }
    else { MusicIsPlain(s); }
  }

  lemma SplitTwoIff(s: string, c: char)
    ensures SplitTwo(s, c).Two? <==> OneLine(s) && Has(s, c)
    ensures SplitTwo(s, c).Two? ==> s == SplitTwo(s, c).first + [c] + SplitTwo(s, c).second
  {
    var n := PastLast(s, c);
    if n > 0 { assert s == s[..n - 1] + [c] + s[n..]; }
  }

  /** A special name is its own package name and its own profile name; any other name is
      accepted exactly when it is one line with an underscore. */
  lemma AcceptedIff(s: string)
    ensures Process(s).Named? <==> Special(s) || (OneLine(s) && Has(s, '_'))
    ensures Special(s) ==> Process(s).package == s && ProfileName(Process(s).groups) == s
  {
    SplitTwoIff(s, '_');
    SplitTwoIff(s, '-');
    if Special(s) { SpecialsArePlain(s); }
    hide Special, SplitTwo, OneLine;
    assert SplitThree(s, '_').Three? ==> PastLast(s, '_') > 0;
  }

  /** The same with the special names spelled out. */
  lemma NamesLetThrough(s: string)
    ensures Process(s).Named? <==>
            || s == "messaging-app"
            || s == "unity8-dash"
            || s == "snap.unity8-session.unity8-session"
            || s == "snap.mediaplayer-app.mediaplayer-app"
            || s == "snap.music-app.music-app"
            || (OneLine(s) && Has(s, '_'))
  {
    AcceptedIff(s);
    hide Process, OneLine, Has;
  }

  // --- Names built from their parts ---

  /** Package, application and version come back exactly when neither the application
      nor the version has an underscore; the package may have some. */
  lemma AppIdIff(p: string, a: string, v: string)
    requires OneLine(p) && OneLine(a) && OneLine(v)
    ensures Process(p + "_" + a + "_" + v) == Named(p, Three(p, a, v)) <==> !Has(a, '_') && !Has(v, '_')
  {
    var s := p + "_" + a + "_" + v;
    assert s[|p|] == '_';
    if Special(s) { SpecialsArePlain(s); assert false; }
    ThreeIff(p, a, v);
    hide Special, SplitThree;
  }

  lemma TwoIff(p: string, c: char, q: string)
    requires OneLine(p) && OneLine(q) && c != '\n' && c != '\r'
    ensures MatchesTwo(p + [c] + q, c, p, q)
    ensures SplitTwo(p + [c] + q, c) == Two(p, q) <==> !Has(q, c)
  {
    var s := p + [c] + q;
    var n := PastLast(s, c);
    assert s[|p|] == c;
    assert q == s[|p| + 1..] && p == s[..|p|];
    assert Has(q, c) <==> n != |p| + 1 by {
      if n > |p| + 1 { assert q[n - |p| - 2] == c; }
    }
    assert |s[..n - 1]| == n - 1;
  }

  lemma ThreeIff(p: string, a: string, v: string)
    requires OneLine(p) && OneLine(a) && OneLine(v)
    ensures SplitThree(p + "_" + a + "_" + v, '_') == Three(p, a, v) <==> !Has(a, '_') && !Has(v, '_')
  {
    var front := p + "_" + a;
    TwoIff(p, '_', a);
    TwoIff(front, '_', v);
    SplitTwoIff(front + "_" + v, '_');
    var g := SplitTwo(front + "_" + v, '_');
    hide SplitTwo, Has, OneLine;
    if g.Two? && g.second == v {
      assert g.first == (g.first + "_" + v)[..|g.first|];
      assert front == (front + "_" + v)[..|front|];
    }
  }

  /** Without a version, package and application come back exactly when neither has
      an underscore. */
  lemma ShortAppIdIff(p: string, a: string)
    requires OneLine(p) && OneLine(a)
    ensures Process(p + "_" + a) == Named(p, Two(p, a)) <==> !Has(p, '_') && !Has(a, '_')
  {
    var s := p + "_" + a;
    assert s[|p|] == '_';
    if Special(s) { SpecialsArePlain(s); assert false; }
    TwoIff(p, '_', a);
    SplitTwoIff(p, '_');
    hide Special, SplitTwo;
  }
}
