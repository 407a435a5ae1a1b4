/** The search for an extension name in a list separated by blanks. */
module ExtensionScan {

  /** `x` stands in `s` at `i`. */
  predicate Occurs(s: string, x: string, i: nat) {
    i + |x| <= |s| && s[i..i + |x|] == x
  }

  /** A blank or the end of the text at `i`. */
  predicate Boundary(s: string, i: nat) {
    i == |s| || (i < |s| && s[i] == ' ')
  }

  lemma OccursChar(s: string, x: string, i: nat, k: nat)
    requires Occurs(s, x, i) && i <= k < i + |x|
    ensures s[k] == x[k - i]
  {
    assert s[i..i + |x|][k - i] == s[k];
  }

  predicate OneWord(x: string) {
    x != "" && forall i :: 0 <= i < |x| ==> x[i] != ' '
  }

  predicate EndsAt(s: string, x: string, i: nat) {
    Occurs(s, x, i) && Boundary(s, i + |x|)
  }

  /** `x` is one of the names in the list. */
  ghost predicate Listed(s: string, x: string) {
    exists i: nat :: EndsAt(s, x, i) && (i == 0 || s[i - 1] == ' ')
  }

  /** Some name in the list ends with `x`. */
  ghost predicate EndsAName(s: string, x: string) {
    exists i: nat :: EndsAt(s, x, i)
  }

  /** What std::string::find answers. */
  datatype Hit = Npos | Hit(at: nat)

  function Find(s: string, x: string, pos: nat): (h: Hit)
    requires pos <= |s|
    ensures h.Hit? ==> pos <= h.at && Occurs(s, x, h.at) && forall i :: pos <= i < h.at ==> !Occurs(s, x, i)
    ensures h.Npos? ==> forall i :: pos <= i ==> !Occurs(s, x, i)
    decreases |s| - pos
  {
    if Occurs(s, x, pos) then Hit(pos) else if pos == |s| then Npos else Find(s, x, pos + 1)
  }

  // --- The loop, turn by turn ---

  datatype Turn = Answer(found: bool) | Again(pos: nat)

  function TakeTurn(s: string, x: string, pos: nat): (t: Turn)
    requires pos <= |s|
    ensures t.Again? ==> pos + |x| <= t.pos <= |s|
  {
    match Find(s, x, pos)
    case Npos => Answer(false)
    case Hit(i) => if Boundary(s, i + |x|) then Answer(true) else Again(i + |x|)
  }

  /** Where the loop is after `n` turns. */
  function After(s: string, x: string, n: nat): (t: Turn)
    ensures t.Again? ==> n * |x| <= t.pos <= |s|
  {
    if n == 0 then Again(0) else
      match After(s, x, n - 1)
      case Answer(found) => Answer(found)
      case Again(pos) => TakeTurn(s, x, pos)
  }

  predicate EmptyNameAnswered(s: string) {
    s == "" || s[0] == ' '
  }

  lemma {:induction false} EmptyNameStays(s: string, n: nat)
    requires !EmptyNameAnswered(s)
    ensures After(s, "", n) == Again(0)
  {
    if n > 0 {
      EmptyNameStays(s, n - 1);
      assert Occurs(s, "", 0);
    }
  }

  /** The loop ends for every name that is not empty; for the empty name only when the
      list is empty or begins with a blank. */
  lemma EndsIff(s: string, x: string)
    ensures (exists n: nat :: After(s, x, n).Answer?) <==> x != "" || EmptyNameAnswered(s)
  {
    if x != "" {
      var n := |s| + 1;
      assert n <= n * |x|;
      assert After(s, x, n).Answer?;
    } else if EmptyNameAnswered(s) {
      assert Occurs(s, "", 0);
      assert After(s, x, 0) == Again(0);
      assert After(s, x, 1) == Answer(true);
    } else {
      forall n: nat ensures !After(s, x, n).Answer? { EmptyNameStays(s, n); }
    }
  }

  // --- The answer ---

  /** The answer of the loop begun at `pos`. */
  predicate Scan(s: string, x: string, pos: nat)
    requires pos <= |s| && x != ""
    decreases |s| - pos
  {
    match TakeTurn(s, x, pos)
    case Answer(found) => found
    case Again(next) => Scan(s, x, next)
  }

  lemma ScanUnfolds(s: string, x: string, pos: nat)
    requires pos <= |s| && x != ""
    ensures var h := Find(s, x, pos);
            Scan(s, x, pos) <==> h.Hit? && (Boundary(s, h.at + |x|) || Scan(s, x, h.at + |x|))
  {
  }

  /** find_extension. */
  method FindExtension(extensions: string, ext: string) returns (found: bool)
    requires ext != "" || EmptyNameAnswered(extensions)
    ensures found <==> ext == "" || Scan(extensions, ext, 0)
  {
    var len := |ext|;
    var pos := 0;
    var hit := Find(extensions, ext, pos);
    assert ext == "" ==> Occurs(extensions, ext, 0);
    hide Find, Occurs, Scan;
    while hit.Hit?
      invariant pos <= |extensions|
      invariant hit == Find(extensions, ext, pos)
      invariant ext == "" ==> hit == Hit(0)
      invariant ext != "" ==> Scan(extensions, ext, 0) == Scan(extensions, ext, pos)
      decreases |extensions| - pos
    {
      if ext != "" { ScanUnfolds(extensions, ext, pos); }
      if hit.at + len == |extensions| || extensions[hit.at + len] == ' ' {
        return true;
      }
      pos := hit.at + len;
      hit := Find(extensions, ext, pos);
    }
    ScanUnfolds(extensions, ext, pos);
    return false;
  }

  /** A yes always comes from a name that ends with `x`. */
  lemma {:induction false} YesEndsAName(s: string, x: string, pos: nat)
    requires pos <= |s| && x != "" && Scan(s, x, pos)
    ensures EndsAName(s, x)
    decreases |s| - pos
  {
    match TakeTurn(s, x, pos)
    case Answer(_) => assert EndsAt(s, x, Find(s, x, pos).at);
    case Again(next) => YesEndsAName(s, x, next);
  }

  /** The scan reaches the occurrence at `i` unless an earlier one overlaps it. */
  lemma {:induction false} ScanReaches(s: string, x: string, pos: nat, i: nat)
    requires x != "" && pos <= i && EndsAt(s, x, i)
    requires forall j: nat :: j < i && Occurs(s, x, j) ==> j + |x| <= i
    ensures Scan(s, x, pos)
    decreases |s| - pos
  {
    var t := TakeTurn(s, x, pos);
    if t.Again? {
      assert Find(s, x, pos).at < i;
      ScanReaches(s, x, t.pos, i);
    }
  }

  /** The skip by the length of the name never jumps over a listed name. */
  lemma ListedIsFound(s: string, x: string)
    requires OneWord(x) && Listed(s, x)
    ensures Scan(s, x, 0)
  {
    var i: nat :| EndsAt(s, x, i) && (i == 0 || s[i - 1] == ' ');
    forall j: nat | j < i && Occurs(s, x, j) ensures j + |x| <= i {
      if j + |x| > i { OccursChar(s, x, j, i - 1); }
    }
    ScanReaches(s, x, 0, i);
  }

  // --- Where the answer is exact ---

  /** A proper part of `x` both begins and ends it: shifted by `p` it meets itself. */
  predicate Overlaps(x: string, p: nat) {
    0 < p < |x| && x[p..] == x[..|x| - p]
  }

  ghost predicate Unbordered(x: string) {
    forall p: nat :: !Overlaps(x, p)
  }

  lemma OverlapsWhenTwice(s: string, x: string, j: nat, i: nat)
    requires Occurs(s, x, j) && Occurs(s, x, i) && j < i < j + |x|
    ensures Overlaps(x, i - j)
  {
    var p := i - j;
    forall k | 0 <= k < |x| - p ensures x[p..][k] == x[k] {
      assert s[j..j + |x|][p + k] == s[i..i + |x|][k];
    }
  }

  lemma SelfOverlapMissed(x: string, p: nat)
    requires OneWord(x) && Overlaps(x, p)
    ensures EndsAName(x[..p] + x, x) && !Scan(x[..p] + x, x, 0)
  {
    var s := x[..p] + x;
    assert EndsAt(s, x, p);
    assert s[..|x|] == x by {
      forall k | p <= k < |x| ensures s[k] == x[k] { assert x[p..][k - p] == x[..|x| - p][k - p]; }
    }
    assert Occurs(s, x, 0);
    assert s[|x|] == x[|x| - p];
    assert TakeTurn(s, x, 0) == Again(|x|);
    assert Find(s, x, |x|) == Npos;
  }

  /** The answer is "some name ends with `x`" in every list exactly for the names that
      do not overlap themselves. */
  lemma SuffixSearchIff(x: string)
    requires OneWord(x)
    ensures Unbordered(x) <==> forall s :: Scan(s, x, 0) <==> EndsAName(s, x)
  {
    if Unbordered(x) {
      forall s ensures Scan(s, x, 0) <==> EndsAName(s, x) {
        if Scan(s, x, 0) {
          YesEndsAName(s, x, 0);
        } else if EndsAName(s, x) {
          var i: nat :| EndsAt(s, x, i);
          forall j: nat | j < i && Occurs(s, x, j) ensures j + |x| <= i {
            if j + |x| > i { OverlapsWhenTwice(s, x, j, i); }
          }
          ScanReaches(s, x, 0, i);
        }
      }
    } else {
      var p: nat :| Overlaps(x, p);
      SelfOverlapMissed(x, p);
    }
  }

  /** For such names the answer is right exactly when the name is listed or ends no
      listed name. */
  lemma ExactIff(s: string, x: string)
    requires OneWord(x) && Unbordered(x)
    ensures (Scan(s, x, 0) <==> Listed(s, x)) <==> Listed(s, x) || !EndsAName(s, x)
  {
    SuffixSearchIff(x);
    if Listed(s, x) { ListedIsFound(s, x); }
  }

  /** No name is safe from a wrong yes: a longer name that ends with it is enough. */
  lemma LongerNameFools(x: string, c: char)
    requires OneWord(x) && c != ' ' && c != x[0]
    ensures Scan([c] + x, x, 0) && !Listed([c] + x, x)
  {
    var s := [c] + x;
    assert s[1..] == x;
    assert EndsAt(s, x, 1);
    if Occurs(s, x, 0) { OccursChar(s, x, 0, 0); }
    ScanReaches(s, x, 0, 1);
  }

  // --- The two names the program looks for ---

  const IMAGE_BASE := "EGL_KHR_image_base"
  const DMA_BUF_IMPORT := "EGL_EXT_image_dma_buf_import"

  lemma OverlapChars(x: string, p: nat)
    requires Overlaps(x, p)
    ensures x[p] == x[0] && (p + 1 < |x| ==> x[p + 1] == x[1])
  {
    assert x[p..][0] == x[..|x| - p][0];
    assert p + 1 < |x| ==> x[p..][1] == x[..|x| - p][1];
  }

  lemma ImageBaseDoesNotOverlap()
    ensures OneWord(IMAGE_BASE) && Unbordered(IMAGE_BASE)
  {
    forall p: nat ensures !Overlaps(IMAGE_BASE, p) {
      if Overlaps(IMAGE_BASE, p) { OverlapChars(IMAGE_BASE, p); }
    }
  }

  lemma DmaBufImportDoesNotOverlap()
    ensures OneWord(DMA_BUF_IMPORT) && Unbordered(DMA_BUF_IMPORT)
  {
    forall p: nat ensures !Overlaps(DMA_BUF_IMPORT, p) {
      if Overlaps(DMA_BUF_IMPORT, p) { OverlapChars(DMA_BUF_IMPORT, p); }
    }
  }

  /** So for both the display is taken to have the extension exactly if some name it
      lists ends with it, and wrongly exactly if that name is longer. */
  lemma NeededNames(s: string, x: string)
    requires x == IMAGE_BASE || x == DMA_BUF_IMPORT
    ensures x != "" && (Scan(s, x, 0) <==> EndsAName(s, x))
    ensures (Scan(s, x, 0) <==> Listed(s, x)) <==> Listed(s, x) || !EndsAName(s, x)
  {
    if x == IMAGE_BASE { ImageBaseDoesNotOverlap(); } else { DmaBufImportDoesNotOverlap(); }
    hide Unbordered, Scan;
    SuffixSearchIff(x);
    ExactIff(s, x);
  }
}
