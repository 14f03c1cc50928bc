/**
 Rewriting the generated regions of a document: what stands between a pair of fences is replaced, nothing else moves.
 */
module Regions {
  import opened Wrappers

  // ---------------------------------------------------------------- searching

  predicate Occurs(s: string, pattern: string, i: int) {
    0 <= i && i + |pattern| <= |s| && s[i..i + |pattern|] == pattern
  }

  predicate Contains(s: string, pattern: string) {
    exists i :: 0 <= i <= |s| && Occurs(s, pattern, i)
  }

  /** The first occurrence at or after `from`. */
  function Search(s: string, pattern: string, from: nat): (r: Option<nat>)
    requires from <= |s|
    ensures r.Some? ==> from <= r.value && Occurs(s, pattern, r.value) && forall j :: from <= j < r.value ==>
      !Occurs(s, pattern, j)
    ensures r.None? ==> forall j :: from <= j ==> !Occurs(s, pattern, j)
    decreases |s| - from
  {
    if Occurs(s, pattern, from) then Some(from)
    else if from == |s| then None
    else Search(s, pattern, from + 1)
  }

  /** str.index, with None for the ValueError. */
  function Index(s: string, pattern: string): (r: Option<nat>)
    ensures r.Some? ==> Occurs(s, pattern, r.value) && forall j :: 0 <= j < r.value ==> !Occurs(s, pattern, j)
    ensures r.None? ==> !Contains(s, pattern)
  {
    Search(s, pattern, 0)
  }

  lemma IndexIsFirst(s: string, pattern: string, k: nat)
    requires Occurs(s, pattern, k) && forall j :: 0 <= j < k ==> !Occurs(s, pattern, j)
    ensures Index(s, pattern) == Some(k)
  {
    assert Contains(s, pattern) by {
      assert 0 <= k <= |s| && Occurs(s, pattern, k);
    }
  }

  // ---------------------------------------------------------------- one region

  datatype Fence = Fence(opening: string, closing: string)

  function FenceOf(marker: string): Fence {
    Fence("<!-- " + marker + " -->", "<!-- /" + marker + " -->")
  }

  /** A fence fits on one line, as any marker without a line break gives it. */
  predicate OnOneLine(f: Fence) {
    f.opening != "" && f.closing != "" && '\n' !in f.opening && '\n' !in f.closing
  }

  lemma MarkersFitOnOneLine(marker: string)
    requires '\n' !in marker
    ensures OnOneLine(FenceOf(marker))
  {
    var f := FenceOf(marker);
    assert '\n' !in "<!-- " && '\n' !in "<!-- /" && '\n' !in " -->";
    assert forall c :: c in f.opening ==> c in "<!-- " || c in marker || c in " -->";
    assert forall c :: c in f.closing ==> c in "<!-- /" || c in marker || c in " -->";
  }

  function Lines(body: string): string {
    "\n" + body + "\n"
  }

  /** The document with the text from `start` to `end` replaced by the body on lines of its own. */
  function Splice(document: string, start: nat, end: nat, body: string): string
    requires start <= |document| && end <= |document|
  {
    document[..start] + Lines(body) + document[end..]
  }

  /** None when a fence is missing. The fences are not required to be in order. */
  function ReplaceRegion(document: string, f: Fence, body: string): Option<string> {
    var opening, closing := Index(document, f.opening), Index(document, f.closing);
    if opening.None? || closing.None? then None
    else Some(Splice(document, opening.value + |f.opening|, closing.value, body))
  }

  /** Both fences are there, the opening one first. */
  predicate Fenced(document: string, f: Fence) {
    && Index(document, f.opening).Some? && Index(document, f.closing).Some?
    && Index(document, f.opening).value + |f.opening| <= Index(document, f.closing).value
  }

  function Start(document: string, f: Fence): (r: nat)
    requires Fenced(document, f)
    ensures r <= |document|
  {
    Index(document, f.opening).value + |f.opening|
  }

  function End(document: string, f: Fence): (r: nat)
    requires Fenced(document, f)
    ensures Start(document, f) <= r && r + |f.closing| <= |document|
  {
    Index(document, f.closing).value
  }

  function Content(document: string, f: Fence): string
    requires Fenced(document, f)
  {
    document[Start(document, f)..End(document, f)]
  }

  // ---------------------------------------------------------------- where a pattern occurs after a splice

  lemma OccursInSlice(s: string, pattern: string, i: nat, lo: nat, hi: nat)
    requires lo <= i && i + |pattern| <= hi <= |s|
    ensures Occurs(s, pattern, i) <==> Occurs(s[lo..hi], pattern, i - lo)
  {
    var a, b := s[lo..hi][i - lo..i - lo + |pattern|], s[i..i + |pattern|];
    forall k | 0 <= k < |pattern| ensures a[k] == b[k] {
      assert a[k] == s[lo..hi][i - lo + k] && b[k] == s[i + k];
    }
    assert a == b;
  }

  lemma BreakBreaks(s: string, pattern: string, i: nat, n: nat)
    requires '\n' !in pattern && i <= n < i + |pattern| && n < |s| && s[n] == '\n'
    ensures !Occurs(s, pattern, i)
  {
    assert pattern[n - i] in pattern;
    if i + |pattern| <= |s| {
      assert s[i..i + |pattern|][n - i] == s[n];
    }
  }

  lemma SpliceLayout(document: string, start: nat, end: nat, body: string)
    requires start <= |document| && end <= |document|
    ensures var r := Splice(document, start, end, body); var after := start + |body| + 2;
      && |r| == after + |document| - end
      && r[..start] == document[..start] && r[start] == '\n' && r[start + 1..after - 1] == body && r[after - 1] == '\n'
      && r[after..] == document[end..]
  {
    var r := Splice(document, start, end, body);
    assert r == document[..start] + ("\n" + (body + ("\n" + document[end..])));
  }

  /** Before the end of the body nothing new occurs that the body does not hold. */
  lemma NothingInTheBody(document: string, start: nat, end: nat, body: string, pattern: string, i: nat)
    requires start <= |document| && end <= |document| && '\n' !in pattern && pattern != "" && !Contains(body, pattern)
    requires i < start + |body| + 2 && start < i + |pattern|
    ensures !Occurs(Splice(document, start, end, body), pattern, i)
  {
    var r := Splice(document, start, end, body);
    var after := start + |body| + 2;
    SpliceLayout(document, start, end, body);
    if i <= start {
      BreakBreaks(r, pattern, i, start);
    } else if i + |pattern| > after - 1 {
      BreakBreaks(r, pattern, i, after - 1);
    } else {
      OccursInSlice(r, pattern, i, start + 1, after - 1);
      assert !Occurs(body, pattern, i - start - 1);
    }
  }

  lemma OccursBefore(document: string, start: nat, end: nat, body: string, pattern: string, i: nat)
    requires start <= |document| && end <= |document| && i + |pattern| <= start
    ensures Occurs(Splice(document, start, end, body), pattern, i) <==> Occurs(document, pattern, i)
  {
    var r := Splice(document, start, end, body);
    SpliceLayout(document, start, end, body);
    OccursInSlice(r, pattern, i, 0, start);
    OccursInSlice(document, pattern, i, 0, start);
  }

  lemma OccursAfter(document: string, start: nat, end: nat, body: string, pattern: string, i: nat)
    requires start <= |document| && end <= i && i + |pattern| <= |document|
    ensures Occurs(Splice(document, start, end, body), pattern, i - end + start + |body| + 2) <==>
      Occurs(document, pattern, i)
  {
    var r := Splice(document, start, end, body);
    var after := start + |body| + 2;
    SpliceLayout(document, start, end, body);
    OccursInSlice(r, pattern, i - end + after, after, |r|);
    OccursInSlice(document, pattern, i, end, |document|);
    assert r[after..|r|] == r[after..] && document[end..|document|] == document[end..];
  }

  /** A pattern whose first occurrence is outside the spliced text is found at the place it has moved to. */
  lemma IndexAfterSplice(document: string, start: nat, end: nat, body: string, pattern: string, k: nat)
    requires start <= end <= |document| && '\n' !in pattern && pattern != "" && !Contains(body, pattern)
    requires Index(document, pattern) == Some(k) && (k + |pattern| <= start || end <= k)
    ensures Index(Splice(document, start, end, body), pattern)
         == Some(if k + |pattern| <= start then k else k - end + start + |body| + 2)
  {
    var r := Splice(document, start, end, body);
    var at := if k + |pattern| <= start then k else k - end + start + |body| + 2;
    if k + |pattern| <= start {
      OccursBefore(document, start, end, body, pattern, k);
    } else {
      OccursAfter(document, start, end, body, pattern, k);
    }
    forall j | 0 <= j < at ensures !Occurs(r, pattern, j) {
      NotEarlier(document, start, end, body, pattern, k, j);
    }
    IndexIsFirst(r, pattern, at);
  }

  lemma NotEarlier(document: string, start: nat, end: nat, body: string, pattern: string, k: nat, j: nat)
    requires start <= end <= |document| && '\n' !in pattern && pattern != "" && !Contains(body, pattern)
    requires Index(document, pattern) == Some(k)
    requires j < if k + |pattern| <= start then k else k - end + start + |body| + 2
    requires k + |pattern| <= start || end <= k
    ensures !Occurs(Splice(document, start, end, body), pattern, j)
  {
    SpliceLayout(document, start, end, body);
    var after := start + |body| + 2;
    if j + |pattern| <= start {
      OccursBefore(document, start, end, body, pattern, j);
    } else if j < after {
      NothingInTheBody(document, start, end, body, pattern, j);
    } else if j + |pattern| <= |Splice(document, start, end, body)| {
      OccursAfter(document, start, end, body, pattern, j - after + end);
    }
  }

  // ---------------------------------------------------------------- replacing one region

  predicate HoldsNoFence(body: string, f: Fence) {
    !Contains(body, f.opening) && !Contains(body, f.closing)
  }

  /** A region already holding the body is left alone, and only such a region. */
  lemma LeftAlone(document: string, f: Fence, body: string)
    requires Fenced(document, f)
    ensures ReplaceRegion(document, f, body) == Some(document) <==> Content(document, f) == Lines(body)
  {
    var start, end := Start(document, f), End(document, f);
    assert document == document[..start] + document[start..end] + document[end..];
    if ReplaceRegion(document, f, body) == Some(document) {
      SpliceLayout(document, start, end, body);
      assert |document[start..end]| == |Lines(body)|;
      assert document[..start] + Lines(body) + document[end..] == document;
      assert Splice(document, start, end, body)[start..end] == Lines(body);
    }
  }

  lemma OpeningStays(document: string, start: nat, end: nat, body: string, opening: string)
    requires start <= |document| && end <= |document| && Index(document, opening).Some?
    requires Index(document, opening).value + |opening| <= start
    ensures Index(Splice(document, start, end, body), opening) == Index(document, opening)
  {
    var k := Index(document, opening).value;
    forall j | 0 <= j <= k
      ensures Occurs(Splice(document, start, end, body), opening, j) <==> Occurs(document, opening, j)
    {
      OccursBefore(document, start, end, body, opening, j);
    }
    IndexIsFirst(Splice(document, start, end, body), opening, k);
  }

  /** The fences of the replaced region itself. */
  lemma OwnFences(document: string, f: Fence, body: string, r: string)
    requires Fenced(document, f) && OnOneLine(f) && !Contains(body, f.closing)
    requires r == Splice(document, Start(document, f), End(document, f), body)
    ensures Fenced(r, f) && Index(r, f.opening) == Index(document, f.opening)
      && End(r, f) == Start(document, f) + |body| + 2
  {
    var start, end := Start(document, f), End(document, f);
    OpeningStays(document, start, end, body, f.opening);
    IndexAfterSplice(document, start, end, body, f.closing, end);
  }

  lemma SplicedContent(document: string, start: nat, end: nat, body: string)
    requires start <= |document| && end <= |document|
    ensures var r := Splice(document, start, end, body);
      start + |body| + 2 <= |r| && r[start..start + |body| + 2] == Lines(body)
  {
  }

  lemma ReplacedIsSpliced(document: string, f: Fence, body: string)
    requires Fenced(document, f)
    ensures ReplaceRegion(document, f, body) == Some(Splice(document, Start(document, f), End(document, f), body))
  {
  }

  /**
   Replacing keeps the fences in place and puts the body between them; the opening fence may even occur in the body.
   */
  lemma Replaced(document: string, f: Fence, body: string)
    requires Fenced(document, f) && OnOneLine(f) && !Contains(body, f.closing)
    ensures var r := ReplaceRegion(document, f, body);
      r.Some? && Fenced(r.value, f) && Start(r.value, f) == Start(document, f) && Content(r.value, f) == Lines(body)
  {
    ReplacedIsSpliced(document, f, body);
    OwnFences(document, f, body, ReplaceRegion(document, f, body).value);
    SplicedContent(document, Start(document, f), End(document, f), body);
  }

  lemma TwiceIsLonger(document: string, start: nat, end: nat, body: string, closing: string)
    requires start <= end <= |document| && Contains(body, closing) && closing != ""
    ensures var once := Splice(document, start, end, body);
      && Index(once, closing).Some?
      && |Splice(once, start, Index(once, closing).value, body)| > |once|
  {
    var once := Splice(document, start, end, body);
    ClosingInTheBody(document, start, end, body, closing);
    var k := Index(once, closing).value;
    SpliceLayout(document, start, end, body);
    SpliceLayout(once, start, k, body);
  }

  lemma SecondReplacementDiffers(document: string, f: Fence, body: string, once: string)
    requires Fenced(document, f) && OnOneLine(f) && Contains(body, f.closing)
    requires once == Splice(document, Start(document, f), End(document, f), body)
    ensures ReplaceRegion(once, f, body) != Some(once)
  {
    var start := Start(document, f);
    OpeningStays(document, start, End(document, f), body, f.opening);
    TwiceIsLonger(document, start, End(document, f), body, f.closing);
    LongerIsDifferent(once, f, body, start, Index(once, f.closing).value);
  }

  lemma LongerIsDifferent(once: string, f: Fence, body: string, start: nat, end: nat)
    requires start <= |once| && end <= |once| && Index(once, f.closing) == Some(end)
    requires Index(once, f.opening).Some? && Index(once, f.opening).value + |f.opening| == start
    requires |Splice(once, start, end, body)| > |once|
    ensures ReplaceRegion(once, f, body) != Some(once)
  {
  }

  lemma SecondReplacementIsTheSame(document: string, f: Fence, body: string, once: string)
    requires Fenced(document, f) && OnOneLine(f) && !Contains(body, f.closing)
      && ReplaceRegion(document, f, body) == Some(once)
    ensures ReplaceRegion(once, f, body) == Some(once)
  {
    Replaced(document, f, body);
    LeftAlone(once, f, body);
  }

  /**
   Replacing a region a second time changes nothing exactly when the body does not hold the closing fence. When it does,
   the second replacement ends at the fence inside the first one's body and leaves the rest of it behind.
   */
  lemma ReplacingTwice(document: string, f: Fence, body: string)
    requires Fenced(document, f) && OnOneLine(f)
    ensures var once := ReplaceRegion(document, f, body);
      once.Some? && (ReplaceRegion(once.value, f, body) == once <==> !Contains(body, f.closing))
  {
    if Contains(body, f.closing) {
      SecondReplacementDiffers(document, f, body, ReplaceRegion(document, f, body).value);
    } else {
      SecondReplacementIsTheSame(document, f, body, ReplaceRegion(document, f, body).value);
    }
  }

  lemma ClosingInTheBody(document: string, start: nat, end: nat, body: string, closing: string)
    requires start <= |document| && end <= |document| && Contains(body, closing) && closing != ""
    ensures var once := Splice(document, start, end, body);
      Index(once, closing).Some? && Index(once, closing).value < start + |body| + 2
  {
    var once := Splice(document, start, end, body);
    var i :| 0 <= i <= |body| && Occurs(body, closing, i);
    SpliceLayout(document, start, end, body);
    OccursInSlice(once, closing, i + start + 1, start + 1, start + 1 + |body|);
    assert Occurs(once, closing, i + start + 1);
  }

  // ---------------------------------------------------------------- two regions

  /** Two regions, neither reaching into the other. */
  predicate Disjoint(document: string, f: Fence, g: Fence)
    requires Fenced(document, f) && Fenced(document, g)
  {
    || End(document, f) + |f.closing| <= Index(document, g.opening).value
    || End(document, g) + |g.closing| <= Index(document, f.opening).value
  }

  predicate WellFenced(document: string, f: Fence, g: Fence) {
    Fenced(document, f) && Fenced(document, g) && Disjoint(document, f, g)
  }

  /** Where a position outside the spliced text has moved to. */
  function Moved(at: nat, start: nat, end: nat, body: string): int {
    if at <= start then at else at - end + start + |body| + 2
  }

  lemma UntouchedFences(document: string, start: nat, end: nat, body: string, g: Fence, r: string)
    requires start <= end <= |document| && Fenced(document, g) && OnOneLine(g) && HoldsNoFence(body, g)
    requires End(document, g) + |g.closing| <= start || end < Index(document, g.opening).value
    requires r == Splice(document, start, end, body)
    ensures Index(r, g.opening).Some? && Index(r, g.closing).Some?
    ensures Index(r, g.opening).value == Moved(Index(document, g.opening).value, start, end, body)
    ensures Index(r, g.closing).value == Moved(End(document, g), start, end, body)
  {
    IndexAfterSplice(document, start, end, body, g.opening, Index(document, g.opening).value);
    IndexAfterSplice(document, start, end, body, g.closing, End(document, g));
  }

  /** A region that a splice does not touch keeps its fences and what it holds. */
  lemma UntouchedRegion(document: string, start: nat, end: nat, body: string, g: Fence, r: string)
    requires start <= end <= |document| && Fenced(document, g) && OnOneLine(g) && HoldsNoFence(body, g)
    requires End(document, g) + |g.closing| <= start || end < Index(document, g.opening).value
    requires r == Splice(document, start, end, body)
    ensures Fenced(r, g) && Content(r, g) == Content(document, g)
    ensures Index(r, g.opening).value == Moved(Index(document, g.opening).value, start, end, body)
    ensures End(r, g) == Moved(End(document, g), start, end, body)
  {
    UntouchedFences(document, start, end, body, g, r);
    SameContent(document, r, start, end, body, g);
  }

  lemma MovedSlice(document: string, r: string, start: nat, end: nat, body: string, lo: nat, hi: nat, p: int, q: int)
    requires start <= end <= |document| && r == Splice(document, start, end, body)
    requires lo <= hi <= |document| && (hi <= start || end < lo)
    requires p == Moved(lo, start, end, body) && q == Moved(hi, start, end, body)
    ensures 0 <= p <= q <= |r| && r[p..q] == document[lo..hi]
  {
    SpliceLayout(document, start, end, body);
    SliceStays(document, start, end, body, lo, hi);
  }

  lemma SameContent(document: string, r: string, start: nat, end: nat, body: string, g: Fence)
    requires start <= end <= |document| && r == Splice(document, start, end, body) && Fenced(document, g)
      && Fenced(r, g) && g.closing != ""
    requires End(document, g) + |g.closing| <= start || end < Index(document, g.opening).value
    requires Start(r, g) == Moved(Index(document, g.opening).value, start, end, body) + |g.opening|
    requires End(r, g) == Moved(End(document, g), start, end, body)
    ensures Content(r, g) == Content(document, g)
  {
    MovedSlice(document, r, start, end, body, Start(document, g), End(document, g), Start(r, g), End(r, g));
  }

  /** Replacing one region leaves the other one, and what it holds, as it was. */
  lemma OtherRegionStays(document: string, f: Fence, g: Fence, body: string)
    requires WellFenced(document, f, g) && OnOneLine(f) && OnOneLine(g) && HoldsNoFence(body, f)
      && HoldsNoFence(body, g)
    ensures var r := ReplaceRegion(document, f, body);
      r.Some? && WellFenced(r.value, f, g) && Content(r.value, f) == Lines(body)
        && Content(r.value, g) == Content(document, g)
  {
    var r := ReplaceRegion(document, f, body).value;
    ReplacedIsSpliced(document, f, body);
    Replaced(document, f, body);
    OwnFences(document, f, body, r);
    UntouchedRegion(document, Start(document, f), End(document, f), body, g, r);
  }

  lemma SliceOfPrefix(s: string, n: nat, lo: nat, hi: nat)
    requires lo <= hi <= n <= |s|
    ensures s[..n][lo..hi] == s[lo..hi]
  {
    forall k | 0 <= k < hi - lo ensures s[..n][lo..hi][k] == s[lo..hi][k] {
      assert s[..n][lo..hi][k] == s[..n][lo + k];
    }
  }

  lemma SliceOfSuffix(s: string, n: nat, lo: nat, hi: nat)
    requires n <= lo <= hi <= |s|
    ensures s[n..][lo - n..hi - n] == s[lo..hi]
  {
    forall k | 0 <= k < hi - lo ensures s[n..][lo - n..hi - n][k] == s[lo..hi][k] {
      assert s[n..][lo - n..hi - n][k] == s[n..][lo - n + k];
    }
  }

  lemma SliceStays(document: string, start: nat, end: nat, body: string, lo: nat, hi: nat)
    requires start <= end <= |document| && lo <= hi <= |document| && (hi <= start || end <= lo)
    ensures var r := Splice(document, start, end, body); var shift := start + |body| + 2 - end;
      if hi <= start then r[lo..hi] == document[lo..hi]
      else 0 <= lo + shift <= hi + shift <= |r| && r[lo + shift..hi + shift] == document[lo..hi]
  {
    var r := Splice(document, start, end, body);
    var after := start + |body| + 2;
    SpliceLayout(document, start, end, body);
    if hi <= start {
      SliceOfPrefix(r, start, lo, hi);
      SliceOfPrefix(document, start, lo, hi);
    } else {
      SliceOfSuffix(r, after, lo - end + after, hi - end + after);
      SliceOfSuffix(document, end, lo, hi);
    }
  }

  /** What the verifier renders: the first region replaced, then the second one. */
  function Render(document: string, f: Fence, first: string, g: Fence, second: string): Option<string> {
    var once := ReplaceRegion(document, f, first);
    if once.None? then None else ReplaceRegion(once.value, g, second)
  }

  /** After rendering both regions hold their tables, and the fences are as well ordered as before. */
  lemma Rendered(document: string, f: Fence, first: string, g: Fence, second: string)
    requires WellFenced(document, f, g) && OnOneLine(f) && OnOneLine(g)
    requires HoldsNoFence(first, f) && HoldsNoFence(first, g) && HoldsNoFence(second, f) && HoldsNoFence(second, g)
    ensures var r := Render(document, f, first, g, second);
      r.Some? && WellFenced(r.value, f, g) && Content(r.value, f) == Lines(first)
        && Content(r.value, g) == Lines(second)
  {
    OtherRegionStays(document, f, g, first);
    OtherRegionStays(ReplaceRegion(document, f, first).value, g, f, second);
  }

  /** Regeneration is a fixpoint: what has been rendered renders to itself. */
  lemma RenderingIsAFixpoint(document: string, f: Fence, first: string, g: Fence, second: string)
    requires WellFenced(document, f, g) && OnOneLine(f) && OnOneLine(g)
    requires HoldsNoFence(first, f) && HoldsNoFence(first, g) && HoldsNoFence(second, f) && HoldsNoFence(second, g)
    ensures var r := Render(document, f, first, g, second);
      r.Some? && Render(r.value, f, first, g, second) == r
  {
    Rendered(document, f, first, g, second);
    var r := Render(document, f, first, g, second).value;
    LeftAlone(r, f, first);
    LeftAlone(r, g, second);
  }

  /** A document needs no rewriting exactly when both regions already hold their tables. */
  lemma CheckPassesExactly(document: string, f: Fence, first: string, g: Fence, second: string)
    requires WellFenced(document, f, g) && OnOneLine(f) && OnOneLine(g)
    requires HoldsNoFence(first, f) && HoldsNoFence(first, g) && HoldsNoFence(second, f) && HoldsNoFence(second, g)
    ensures Render(document, f, first, g, second) == Some(document) <==>
      Content(document, f) == Lines(first) && Content(document, g) == Lines(second)
  {
    LeftAlone(document, f, first);
    LeftAlone(document, g, second);
    if Render(document, f, first, g, second) == Some(document) {
      Rendered(document, f, first, g, second);
    }
  }

  lemma TwoSplices(document: string, start: nat, end: nat, first: string, lo: nat, hi: nat, second: string,
                   once: string, p: nat, q: nat)
    requires start <= end <= lo <= hi <= |document| && once == Splice(document, start, end, first)
    requires p == lo - end + start + |first| + 2 && q == hi - end + start + |first| + 2
    ensures p <= |once| && q <= |once|
    ensures once[..p] + Lines(second) + once[q..]
         == document[..start] + Lines(first) + document[end..lo] + Lines(second) + document[hi..]
  {
    var after := start + |first| + 2;
    SpliceLayout(document, start, end, first);
    assert once[..after] == document[..start] + Lines(first);
    SliceOfSuffix(once, after, after, p);
    SliceOfSuffix(document, end, end, lo);
    assert once[..p] == once[..after] + once[after..p];
    SliceOfSuffix(once, after, q, |once|);
    SliceOfSuffix(document, end, hi, |document|);
    assert once[q..] == document[hi..];
  }

  /** The document with both contents replaced and everything outside them kept. */
  function Rewritten(document: string, start: nat, end: nat, first: string, lo: nat, hi: nat, second: string): string
    requires start <= end <= lo <= hi <= |document|
  {
    document[..start] + Lines(first) + document[end..lo] + Lines(second) + document[hi..]
  }

  /** Every character outside the two regions stays, in its order. */
  lemma OutsideIsUnchanged(document: string, f: Fence, first: string, g: Fence, second: string)
    requires WellFenced(document, f, g) && OnOneLine(f) && OnOneLine(g)
    requires End(document, f) + |f.closing| <= Index(document, g.opening).value
    requires HoldsNoFence(first, f) && HoldsNoFence(first, g) && HoldsNoFence(second, f) && HoldsNoFence(second, g)
    ensures Render(document, f, first, g, second)
         == Some(Rewritten(document, Start(document, f), End(document, f), first, Start(document, g), End(document, g),
                           second))
  {
    var once := ReplaceRegion(document, f, first).value;
    LaterFences(document, f, first, g, once);
    BothReplaced(document, f, first, g, second, Start(document, f), End(document, f), Start(document, g),
                 End(document, g), once);
  }

  lemma LaterFences(document: string, f: Fence, first: string, g: Fence, once: string)
    requires Fenced(document, f) && Fenced(document, g) && OnOneLine(g) && HoldsNoFence(first, g)
    requires End(document, f) < Index(document, g.opening).value && ReplaceRegion(document, f, first) == Some(once)
    ensures var shift := Start(document, f) + |first| + 2 - End(document, f);
      && Index(once, g.opening).Some? && Index(once, g.opening).value + |g.opening| == Start(document, g) + shift
      && Index(once, g.closing).Some? && Index(once, g.closing).value == End(document, g) + shift
  {
    ReplacedIsSpliced(document, f, first);
    UntouchedFences(document, Start(document, f), End(document, f), first, g, once);
  }

  lemma BothReplaced(document: string, f: Fence, first: string, g: Fence, second: string,
                     start: nat, end: nat, lo: nat, hi: nat, once: string)
    requires start <= end <= lo <= hi <= |document|
    requires Fenced(document, f) && start == Start(document, f) && end == End(document, f)
    requires ReplaceRegion(document, f, first) == Some(once)
    requires Index(once, g.opening).Some?
      && Index(once, g.opening).value + |g.opening| == lo - end + start + |first| + 2
    requires Index(once, g.closing).Some? && Index(once, g.closing).value == hi - end + start + |first| + 2
    ensures Render(document, f, first, g, second) == Some(Rewritten(document, start, end, first, lo, hi, second))
  {
    var p, q := Index(once, g.opening).value + |g.opening|, Index(once, g.closing).value;
    TwoSplices(document, start, end, first, lo, hi, second, once, p, q);
    RenderSecond(document, f, first, g, second, once, p, q);
  }

  lemma RenderSecond(document: string, f: Fence, first: string, g: Fence, second: string, once: string, p: nat, q: nat)
    requires ReplaceRegion(document, f, first) == Some(once) && p <= |once| && q <= |once|
    requires Index(once, g.opening).Some? && Index(once, g.opening).value + |g.opening| == p
      && Index(once, g.closing) == Some(q)
    ensures Render(document, f, first, g, second) == Some(once[..p] + Lines(second) + once[q..])
  {
  }

  /** The same when the region rewritten second comes first in the document. */
  lemma OutsideIsUnchangedBackwards(document: string, f: Fence, first: string, g: Fence, second: string)
    requires WellFenced(document, f, g) && OnOneLine(f) && OnOneLine(g)
    requires End(document, g) + |g.closing| <= Index(document, f.opening).value
    requires HoldsNoFence(first, f) && HoldsNoFence(first, g) && HoldsNoFence(second, f) && HoldsNoFence(second, g)
    ensures Render(document, f, first, g, second)
         == Some(Rewritten(document, Start(document, g), End(document, g), second, Start(document, f), End(document, f),
                           first))
  {
    var once := ReplaceRegion(document, f, first).value;
    EarlierFences(document, f, first, g, once);
    BothReplacedBackwards(document, f, first, g, second, Start(document, g), End(document, g), Start(document, f),
                          End(document, f), once);
  }

  lemma EarlierFences(document: string, f: Fence, first: string, g: Fence, once: string)
    requires Fenced(document, f) && Fenced(document, g) && OnOneLine(g) && HoldsNoFence(first, g)
    requires End(document, g) + |g.closing| <= Start(document, f) && ReplaceRegion(document, f, first) == Some(once)
    ensures Index(once, g.opening) == Index(document, g.opening) && Index(once, g.closing) == Index(document, g.closing)
  {
    ReplacedIsSpliced(document, f, first);
    UntouchedFences(document, Start(document, f), End(document, f), first, g, once);
  }

  lemma BothReplacedBackwards(document: string, f: Fence, first: string, g: Fence, second: string,
                              start: nat, end: nat, lo: nat, hi: nat, once: string)
    requires start <= end <= lo <= hi <= |document|
    requires Fenced(document, f) && lo == Start(document, f) && hi == End(document, f)
      && ReplaceRegion(document, f, first) == Some(once)
    requires Index(once, g.opening).Some? && Index(once, g.opening).value + |g.opening| == start
      && Index(once, g.closing) == Some(end)
    ensures Render(document, f, first, g, second) == Some(Rewritten(document, start, end, second, lo, hi, first))
  {
    HeadAndTail(document, start, end, lo, hi, first, once);
    RenderSecond(document, f, first, g, second, once, start, end);
    JoinedParts(document, start, end, second, lo, hi, first);
  }

  lemma JoinedParts(document: string, start: nat, end: nat, second: string, lo: nat, hi: nat, first: string)
    requires start <= end <= lo <= hi <= |document|
    ensures document[..start] + Lines(second) + (document[end..lo] + Lines(first) + document[hi..]) ==
      Rewritten(document, start, end, second, lo, hi, first)
  {
  }

  lemma HeadAndTail(document: string, start: nat, end: nat, lo: nat, hi: nat, first: string, once: string)
    requires start <= end <= lo <= hi <= |document| && once == Splice(document, lo, hi, first)
    ensures start <= |once| && end <= |once|
    ensures once[..start] == document[..start] && once[end..] == document[end..lo] + Lines(first) + document[hi..]
  {
    SpliceLayout(document, lo, hi, first);
    SliceOfPrefix(once, lo, 0, start);
    SliceOfPrefix(document, lo, 0, start);
    SliceOfPrefix(once, lo, end, lo);
    SliceOfPrefix(document, lo, end, lo);
    assert once[end..] == once[end..lo] + once[lo..];
    assert once[lo..] == Lines(first) + document[hi..];
  }

  // ---------------------------------------------------------------- the check and the rewrite

  datatype Outcome = NoRegions | FenceMissing | Disagrees | Passes

  /** The document step of the verifier, with and without --write: the outcome and the document afterwards. */
  method CheckDocument(document: string, familyMarker: string, family: string, idMarker: string, ids: string,
                       write: bool)
    returns (outcome: Outcome, after: string)
    ensures after != document ==> write && outcome == Passes
    ensures outcome == NoRegions <==> !Contains(document, familyMarker) || !Contains(document, idMarker)
    ensures outcome != NoRegions ==>
      var rendered := Render(document, FenceOf(familyMarker), family, FenceOf(idMarker), ids);
      && (rendered.None? <==> outcome == FenceMissing)
      && (rendered.Some? ==> after == (if write then rendered.value else document))
      && (rendered.Some? ==> (outcome == Passes <==> write || rendered.value == document))
  {
    after := document;
    if !Contains(document, familyMarker) || !Contains(document, idMarker) {
      return NoRegions, document;
    }
    var once := ReplaceRegion(document, FenceOf(familyMarker), family);
    if once.None? {
      return FenceMissing, document;
    }
    var rendered := ReplaceRegion(once.value, FenceOf(idMarker), ids);
    if rendered.None? {
      return FenceMissing, document;
    }
    if rendered.value != document {
      if write {
        return Passes, rendered.value;
      }
      return Disagrees, document;
    }
    return Passes, document;
  }

  const FAMILY_MARKER := "generated:family-summary"
  const ID_MARKER := "generated:requirement-rows"

  /** Whoever writes can check: after --write the same tables pass the check. */
  lemma WriteThenCheck(document: string, family: string, ids: string)
    requires var f, g := FenceOf(FAMILY_MARKER), FenceOf(ID_MARKER);
      && WellFenced(document, f, g)
      && HoldsNoFence(family, f) && HoldsNoFence(family, g) && HoldsNoFence(ids, f) && HoldsNoFence(ids, g)
    ensures var f, g := FenceOf(FAMILY_MARKER), FenceOf(ID_MARKER); var written := Render(document, f, family, g, ids);
      written.Some? && Render(written.value, f, family, g, ids) == written
  {
    MarkersFitOnOneLine(FAMILY_MARKER);
    MarkersFitOnOneLine(ID_MARKER);
    RenderingIsAFixpoint(document, FenceOf(FAMILY_MARKER), family, FenceOf(ID_MARKER), ids);
  }
}
