/** `paginateContentResult` (src/core/content-pagination.ts): stateless pages of one
    provider's content, fenced by a hash of it, cut by a binary search over lengths and
    then trimmed to whole lines. */
module ContentPages {
  import opened Basics
  import opened DurableStore
  import opened JsonText

  /** `rest` is the size of every field of the response that no page changes. */
  datatype Source = Source(content: Text, truncated: bool, identity: string, rest: nat)

  /** The continuation fence: a digest of some source, other hex, or not a digest at all. */
  datatype Fence = DigestOf(source: Source) | OtherDigest | Malformed

  datatype Request = Request(
    providers: nat, source: Source, offset: int, maxContentChars: int, maxOutputChars: int, expected: Option<Fence>)

  datatype Page = Page(
    content: Text, contentOffset: nat, totalContentChars: nat, nextContentOffset: Option<nat>, contentHash: Fence,
    sourceTruncated: bool, truncated: bool)

  datatype Outcome = Ok(page: Page) | InvalidInput | ContentChanged | OutputLimit

  const MAX_OFFSET := 200000

  predicate InRange(r: Request) {
    && r.providers == 1 && 0 <= r.offset <= MAX_OFFSET && 1 <= r.maxContentChars <= 200000
            && 1 <= r.maxOutputChars <= MAX_SAFE_INTEGER
    && (r.expected.Some? ==> r.expected.value != Malformed) && (r.offset > 0 ==> r.expected.Some?)
    && r.offset <= |r.source.content|
  }

  predicate Unchanged(r: Request) { r.expected.Some? ==> r.expected.value == DigestOf(r.source) }

  function Total(r: Request): nat { |r.source.content| }

  function Room(r: Request): nat
    requires InRange(r)
  {
    Min(r.maxContentChars, Total(r) - r.offset)
  }

  function Build(r: Request, n: nat): Page
    requires InRange(r) && r.offset + n <= Total(r)
  {
    var end := r.offset + n;
    Page(r.source.content[r.offset..end], r.offset, Total(r), if end < Total(r) then Some(end) else None,
         DigestOf(r.source),
         r.source.truncated, r.source.truncated || r.offset > 0 || end < Total(r))
  }

  function BoolSize(b: bool): nat { if b then 4 else 5 }

  function Size(r: Request, n: nat): nat
    requires InRange(r) && r.offset + n <= Total(r)
  {
    var p := Build(r, n);
    r.source.rest + TextPoints(r.source.content[r.offset..][..n]) + Digits(r.offset) + Digits(Total(r))
    + (if p.nextContentOffset.Some? then Digits(p.nextContentOffset.value) else 4) + BoolSize(p.truncated)
  }

  predicate Fits(r: Request, n: nat)
    requires InRange(r) && r.offset + n <= Total(r)
  {
    Size(r, n) <= r.maxOutputChars
  }

  predicate Final(r: Request, n: nat) { r.offset + n >= Total(r) }

  lemma ShorterPageFits(r: Request, m: nat, n: nat)
    requires InRange(r) && m <= n && r.offset + n < Total(r) && Fits(r, n)
    ensures Fits(r, m)
  {
    LongerTextCostsMore(r.source.content[r.offset..], m, n);
    DigitsGrow(r.offset + m, r.offset + n);
  }

  // ------------------------------------------------------------------ what a page should be

  /** The whole room, if it fits and so does one character less. */
  predicate WholeRoom(r: Request)
    requires InRange(r)
  {
    Fits(r, Room(r)) && (Room(r) <= 1 || Fits(r, Room(r) - 1))
  }

  /** What the search finds, although the last length breaks the order: the whole room if
      it and one character less fit, otherwise the longest page shorter than it that fits. */
  predicate Found(r: Request, n: nat)
    requires InRange(r)
  {
    if WholeRoom(r) then n == Room(r)
    else n < Room(r) && Fits(r, n) && forall m | n < m < Room(r) :: !Fits(r, m)
  }

  function LastNewline(t: Text): (i: int)
    ensures -1 <= i < |t| && (i >= 0 ==> t[i] == NEWLINE) && forall k | i < k < |t| :: t[k] != NEWLINE
  {
    if t == [] then -1 else if t[|t| - 1] == NEWLINE then |t| - 1 else LastNewline(t[..|t| - 1])
  }

  /** Cut back to the last complete line, unless that would give up a fifth of the page. */
  function Trimmed(r: Request, n: nat): nat
    requires InRange(r) && r.offset + n <= Total(r)
  {
    var i := LastNewline(r.source.content[r.offset..r.offset + n]);
    if !Final(r, n) && i >= 4 * n / 5 then i + 1 else n
  }

  ghost predicate Exact(r: Request, o: Outcome) {
    match o
    case InvalidInput => !InRange(r)
    case ContentChanged => InRange(r) && !Unchanged(r)
    case OutputLimit => InRange(r) && Unchanged(r) && (!Fits(r, 0) || (r.offset < Total(r) && Found(r, 0)))
    case Ok(page) =>
      InRange(r) && Unchanged(r) && Fits(r, 0) && exists n: nat :: n <= Room(r) && Served(r, n, page)
  }

  predicate Served(r: Request, n: nat, page: Page)
    requires InRange(r) && n <= Room(r)
  {
    Found(r, n) && (r.offset < Total(r) ==> n >= 1) && page == Build(r, Trimmed(r, n))
  }

  predicate HasLateNewline(t: Text) { exists k | 4 * |t| / 5 <= k < |t| :: t[k] == NEWLINE }

  /** `t` is cut after its last newline if that lies no earlier than four fifths of it. */
  predicate CutAtLine(kept: Text, t: Text) {
    if HasLateNewline(t) then
      && kept <= t && kept != [] && kept[|kept| - 1] == NEWLINE
      && forall k | |kept| <= k < |t| :: t[k] != NEWLINE
    else kept == t
  }

  /** A page that is given is what the search found, and unless that reaches the end of the
      source, cut at a line. */
  lemma PagesEndAtLines(r: Request, o: Outcome)
    requires Exact(r, o) && o.Ok?
    ensures exists n: nat ::
              && n <= Room(r) && Found(r, n)
              && (if Final(r, n) then o.page.content == r.source.content[r.offset..]
                  else CutAtLine(o.page.content, r.source.content[r.offset..r.offset + n]))
  {
    hide Found, Fits, CutAtLine;
    var n: nat :| n <= Room(r) && Served(r, n, o.page);
    hide Served;
    ServedContent(r, n, o.page);
  }

  lemma ServedContent(r: Request, n: nat, p: Page)
    requires InRange(r) && n <= Room(r) && Served(r, n, p)
    ensures Found(r, n)
    ensures if Final(r, n) then p.content == r.source.content[r.offset..]
            else CutAtLine(p.content, r.source.content[r.offset..r.offset + n])
  {
    hide Found, Fits, LastNewline, CutAtLine;
    var t := r.source.content[r.offset..r.offset + n];
    if Final(r, n) {
      assert t == r.source.content[r.offset..];
    } else {
      LastNewlineCuts(t);
      var k := Trimmed(r, n);
      assert k <= n by { TrimmedKeepsWithin(r, n); }
      assert p.content == t[..k];
    }
  }

  lemma LateIsLast(t: Text)
    ensures HasLateNewline(t) <==> LastNewline(t) >= 4 * |t| / 5
  {
    hide LastNewline;
    var i := LastNewline(t);
    if i >= 4 * |t| / 5 {
      assert t[i] == NEWLINE;
    }
  }

  lemma LastNewlineCuts(t: Text)
    ensures var i := LastNewline(t); CutAtLine(t[..if i >= 4 * |t| / 5 then i + 1 else |t|], t)
  {
    LateIsLast(t);
    hide LastNewline, HasLateNewline;
    var i := LastNewline(t);
    if i >= 4 * |t| / 5 {
      assert t[..i + 1][i] == NEWLINE;
    } else {
      assert t[..|t|] == t;
    }
  }

  /** Its fields say where it stands, where to go on, and whether anything of the source is
      missing from it. */
  lemma PagesSayWhatTheyAre(r: Request, o: Outcome)
    requires Exact(r, o) && o.Ok?
    ensures var p := o.page;
            && p.contentOffset == r.offset && p.contentOffset + |p.content| <= p.totalContentChars == |r.source.content|
            && p.content == r.source.content[p.contentOffset..p.contentOffset + |p.content|]
            && (p.nextContentOffset.None? <==> p.contentOffset + |p.content| == p.totalContentChars)
            && (p.nextContentOffset.Some? ==> p.nextContentOffset.value == p.contentOffset + |p.content|)
            && p.contentHash == DigestOf(r.source) && p.sourceTruncated == r.source.truncated
            && (p.truncated <==> r.source.truncated || p.content != r.source.content)
  {
    hide Found, Fits, Trimmed;
    var n: nat :| n <= Room(r) && Served(r, n, o.page);
    TrimmedKeepsWithin(r, n);
    var k := Trimmed(r, n);
    if r.offset == 0 && k == Total(r) { assert o.page.content == r.source.content; }
  }

  lemma TrimmedKeepsWithin(r: Request, n: nat)
    requires InRange(r) && r.offset + n <= Total(r)
    ensures Trimmed(r, n) <= n
  {
  }

  /** Trimming keeps more than four fifths of the page, and what is kept still fits: the
      limit is never reported after the search. */
  lemma TrimmedStillFits(r: Request, n: nat)
    requires InRange(r) && r.offset + n <= Total(r) && Fits(r, n)
    ensures Trimmed(r, n) <= n && Fits(r, Trimmed(r, n))
    ensures n >= 1 ==> Trimmed(r, n) >= 4 * n / 5 + 1 || Trimmed(r, n) == n
    ensures n >= 1 ==> Trimmed(r, n) >= 1
    ensures Final(r, n) <==> Final(r, Trimmed(r, n))
    ensures Trimmed(r, n) < n ==> r.source.content[r.offset + Trimmed(r, n) - 1] == NEWLINE
  {
    if Trimmed(r, n) < n { ShorterPageFits(r, Trimmed(r, n), n); }
  }

  // ------------------------------------------------------------------ the search

  method Search(r: Request) returns (low: nat)
    requires InRange(r) && Fits(r, 0)
    ensures low <= Room(r) && Found(r, low)
  {
    hide Fits;
    low := 0;
    var high := Room(r);
    while low < high
      invariant low <= high <= Room(r)
      invariant Fits(r, low) && (forall m | high < m < Room(r) :: !Fits(r, m))
      invariant low == Room(r) ==> WholeRoom(r)
      invariant high < Room(r) ==> !WholeRoom(r)
    {
      var count := (low + high + 1) / 2;
      if Fits(r, count) {
        low := count;
      } else {
        forall m | count - 1 < m < Room(r) ensures !Fits(r, m) { TooLongStays(r, count, m); }
        if count < Room(r) { TooLongStays(r, count, Room(r) - 1); }
        high := count - 1;
      }
    }
  }

  lemma TooLongStays(r: Request, n: nat, m: nat)
    requires InRange(r) && n <= m <= Room(r) && !Fits(r, n) && !Final(r, m)
    ensures !Fits(r, m)
  {
    if Fits(r, m) { ShorterPageFits(r, n, m); }
  }

  method Paginate(r: Request) returns (o: Outcome)
    ensures Exact(r, o)
  {
    hide Fits, Build;
    if r.providers != 1 || r.offset < 0 || r.offset > MAX_OFFSET || r.maxContentChars < 1 || r.maxContentChars > 200000
       || r.maxOutputChars < 1 || r.maxOutputChars > MAX_SAFE_INTEGER || r.expected == Some(Malformed)
       || (r.offset > 0 && r.expected.None?) {
      return InvalidInput;
    }
    if r.offset > |r.source.content| { return InvalidInput; }
    if r.expected.Some? && r.expected.value != DigestOf(r.source) { return ContentChanged; }
    if !Fits(r, 0) { return OutputLimit; }
    var low := Search(r);
    if low == 0 && r.offset < Total(r) { return OutputLimit; }
    ghost var n := low;
    if r.offset + low < Total(r) {
      var lastNewline := LastNewline(r.source.content[r.offset..r.offset + low]);
      if lastNewline >= 4 * low / 5 { low := lastNewline + 1; }
    }
    assert low == Trimmed(r, n);
    TrimmedStillFits(r, n);
    var page := Build(r, low);
    if !Fits(r, low) { assert false; }
    assert Served(r, n, page);
    o := Ok(page);
  }

  // ------------------------------------------------------------------ what it means

  /** There is exactly one exact outcome, so the search computes a function. */
  lemma ExactIsUnique(r: Request, o: Outcome, q: Outcome)
    requires Exact(r, o) && Exact(r, q)
    ensures o == q
  {
    hide Build, Trimmed, Fits;
    if o.Ok? && q.Ok? {
      var m: nat :| m <= Room(r) && Served(r, m, o.page);
      var n: nat :| n <= Room(r) && Served(r, n, q.page);
      assert m == n by { OneFound(r, m, n); }
    }
  }

  lemma OneFound(r: Request, m: nat, n: nat)
    requires InRange(r) && Found(r, m) && (Found(r, n) || !Fits(r, 0))
    ensures Found(r, n) ==> m == n
  {
  }

  /** The last page fits and the one a character shorter does not. */
  predicate Missed(r: Request)
    requires InRange(r)
  {
    Final(r, Room(r)) && Fits(r, Room(r)) && Room(r) >= 2 && !Fits(r, Room(r) - 1)
  }

  /** Longest fit, with one exact exception: a last page that is missed. */
  lemma LongestExceptMissedLastPage(r: Request, n: nat)
    requires InRange(r) && Fits(r, 0) && Found(r, n)
    ensures (forall m | n < m <= Room(r) :: !Fits(r, m)) <==> !Missed(r)
  {
    if !WholeRoom(r) && Fits(r, Room(r)) && !Final(r, Room(r)) { ShorterPageFits(r, Room(r) - 1, Room(r)); }
  }

  /** By how much the page one character shorter than the last is larger: it has to name
      where to go on, and to say it is truncated, for less text. */
  function Overhang(r: Request): int
    requires InRange(r) && Room(r) >= 2
  {
    Digits(Total(r) - 1) - Points(r.source.content[r.offset + Room(r) - 1])
      - BoolSize(r.source.truncated || r.offset > 0)
  }

  lemma ShorterByOne(r: Request)
    requires InRange(r) && Room(r) >= 2 && Final(r, Room(r))
    ensures Size(r, Room(r) - 1) == Size(r, Room(r)) + Overhang(r)
  {
    var t, n := r.source.content[r.offset..], Room(r);
    assert t[..n][..n - 1] == t[..n - 1] && t[..n][n - 1] == r.source.content[r.offset + n - 1];
  }

  /** When the last page is missed, in terms of the content alone: the limit lies in the
      gap between it and the page one character shorter, and for some limit there is such
      a gap if and only if the offset of the last character is written longer than the
      final flag and that character together. */
  lemma MissedExactly(r: Request)
    requires InRange(r)
    ensures Missed(r) <==>
              && Final(r, Room(r)) && Room(r) >= 2
              && Size(r, Room(r)) <= r.maxOutputChars < Size(r, Room(r)) + Overhang(r)
    ensures (exists limit | 1 <= limit <= MAX_SAFE_INTEGER :: Missed(r.(maxOutputChars := limit))) <==>
              && Final(r, Room(r)) && Room(r) >= 2 && Size(r, Room(r)) <= MAX_SAFE_INTEGER
              && Digits(Total(r) - 1) > Points(r.source.content[r.offset + Room(r) - 1])
                 + BoolSize(r.source.truncated || r.offset > 0)
  {
    hide Size, Digits, Fits, Missed;
    MissedAt(r);
    forall limit | 1 <= limit <= MAX_SAFE_INTEGER
      ensures Missed(r.(maxOutputChars := limit)) <==>
                && Final(r, Room(r)) && Room(r) >= 2
                && Size(r, Room(r)) <= limit < Size(r, Room(r)) + Overhang(r)
    {
      SizeIgnoresLimit(r, limit);
      MissedAt(r.(maxOutputChars := limit));
    }
    SizeIsPositive(r);
    if Final(r, Room(r)) && Room(r) >= 2 && Size(r, Room(r)) <= MAX_SAFE_INTEGER && Overhang(r) > 0 {
      assert Missed(r.(maxOutputChars := Size(r, Room(r))));
    }
  }

  lemma SizeIsPositive(r: Request)
    requires InRange(r)
    ensures Size(r, Room(r)) >= 1
  {
  }

  lemma MissedAt(r: Request)
    requires InRange(r)
    ensures Missed(r) <==>
              && Final(r, Room(r)) && Room(r) >= 2
              && Size(r, Room(r)) <= r.maxOutputChars < Size(r, Room(r)) + Overhang(r)
  {
    hide Size, Digits, Overhang;
    if Final(r, Room(r)) && Room(r) >= 2 { ShorterByOne(r); }
  }

  lemma SizeIgnoresLimit(r: Request, limit: int)
    requires InRange(r) && 1 <= limit <= MAX_SAFE_INTEGER
    ensures var q := r.(maxOutputChars := limit);
            && InRange(q) && Room(q) == Room(r)
            && forall n | 0 <= n <= Room(r) :: Size(q, n) == Size(r, n)
  {
  }

  /** So content of at most 100 000 characters always gets its longest page. */
  lemma ShortContentIsNeverMissed(r: Request)
    requires InRange(r) && Total(r) <= 100000
    ensures !Missed(r)
  {
    MissedExactly(r);
    if Room(r) >= 2 { DigitsGrow(Total(r) - 1, 99999); }
  }

  function Letters(n: nat): Text { seq(n, _ => 97) }

  lemma {:induction false} LettersCostOneEach(n: nat)
    ensures TextPoints(Letters(n)) == n
    decreases n
  {
    if n > 0 {
      assert Letters(n)[..n - 1] == Letters(n - 1);
      LettersCostOneEach(n - 1);
    }
  }

  /** And longer content can miss it: 100 002 letters of a truncated source fit a limit of
      100 017 characters beside the fixed fields, and the search stops short of them. */
  lemma LastPageIsMissed(rest: nat, n: nat)
    requires rest <= MAX_SAFE_INTEGER - 100017 && Found(MissedRequest(rest), n)
    ensures var r := MissedRequest(rest);
            Room(r) == 100002 && Fits(r, 0) && Fits(r, Room(r)) && Missed(r) && n < Room(r) - 1
  {
    hide Digits;
    var r := MissedRequest(rest);
    LettersCostOneEach(100002);
    assert r.source.content[0..][..100002] == Letters(100002);
    SixDigits();
    ShorterByOne(r);
    assert r.source.content[0..][..0] == [];
  }

  lemma SixDigits()
    ensures Digits(0) == 1 && Digits(100001) == 6 && Digits(100002) == 6
  {
    assert Digits(10000) == 1 + Digits(1000) && Digits(1000) == 1 + Digits(100) && Digits(100) == 3;
  }

  function MissedRequest(rest: nat): (r: Request)
    requires rest <= MAX_SAFE_INTEGER - 100017
    ensures InRange(r)
  {
    Request(1, Source(Letters(100002), true, "", rest), 0, 200000, rest + 100017, None)
  }

  /** Pages that are returned fit the limit, make progress and say where to go on. */
  lemma PagesMakeProgress(r: Request, o: Outcome)
    requires Exact(r, o) && o.Ok?
    ensures 0 <= r.offset <= r.offset + |o.page.content| <= Total(r)
    ensures r.offset < Total(r) ==> |o.page.content| >= 1
    ensures o.page == Build(r, |o.page.content|) && Fits(r, |o.page.content|)
  {
    hide Fits, LastNewline, Found, Trimmed;
    var n: nat :| n <= Room(r) && Served(r, n, o.page);
    FoundFits(r, n);
    TrimmedStillFits(r, n);
    assert |Build(r, Trimmed(r, n)).content| == Trimmed(r, n);
  }

  lemma FoundFits(r: Request, n: nat)
    requires InRange(r) && Found(r, n)
    ensures n <= Room(r) && Fits(r, n)
  {
  }

  /** What a caller does next: the same request at the next offset, fenced by the hash. */
  function Continue(r: Request, page: Page): Request
    requires page.nextContentOffset.Some?
  {
    r.(offset := page.nextContentOffset.value, expected := Some(page.contentHash))
  }

  ghost predicate Followed(r: Request, pages: seq<Outcome>)
    decreases |pages|
  {
    && |pages| >= 1 && Exact(r, pages[0])
    && (if pages[0].Ok? && pages[0].page.nextContentOffset.Some?
        then |pages| >= 2 && Followed(Continue(r, pages[0].page), pages[1..])
        else |pages| == 1)
  }

  function Joined(pages: seq<Outcome>): Text
    decreases |pages|
  {
    if pages == [] then [] else (if pages[0].Ok? then pages[0].page.content else []) + Joined(pages[1..])
  }

  /** Following pages of unchanged content never reports a change, and if no page is
      refused the pages joined are the whole rest of it. A refusal before the end is the
      output limit, or an offset past what the tool accepts. */
  lemma {:induction false} FollowingPagesReadsEverything(r: Request, pages: seq<Outcome>)
    requires InRange(r) && Unchanged(r) && Followed(r, pages)
    ensures |pages| <= Total(r) - r.offset + 1
    ensures (forall i | 0 <= i < |pages| :: pages[i].Ok?) ==> Joined(pages) == r.source.content[r.offset..]
    ensures forall i | 0 <= i < |pages| :: !pages[i].ContentChanged?
    ensures Total(r) <= MAX_OFFSET + 1 ==> forall i | 0 <= i < |pages| :: !pages[i].InvalidInput?
    decreases |pages|
  {
    hide Exact, Fits, Build, InRange, Unchanged;
    var first := pages[0];
    FirstPage(r, first);
    if first.Ok? && first.page.nextContentOffset.Some? {
      var next := Continue(r, first.page);
      if InRange(next) {
        FollowingPagesReadsEverything(next, pages[1..]);
      } else {
        RefusedStops(next, pages[1..]);
        assert pages[1].InvalidInput?;
      }
      forall i | 0 <= i < |pages|
        ensures !pages[i].ContentChanged? && (Total(r) <= MAX_OFFSET + 1 ==> !pages[i].InvalidInput?)
      {
        if i > 0 { assert pages[i] == pages[1..][i - 1]; }
      }
      if forall i | 0 <= i < |pages| :: pages[i].Ok? {
        assert forall i | 0 <= i < |pages| - 1 :: pages[1..][i] == pages[i + 1];
        SliceJoins(r.source.content, r.offset, next.offset);
      }
    } else if first.Ok? {
      assert pages[1..] == [] && Joined(pages[1..]) == [];
      assert first.page.content + [] == first.page.content;
    }
  }

  lemma NotRefused(r: Request, o: Outcome)
    requires Exact(r, o) && InRange(r) && Unchanged(r)
    ensures !o.InvalidInput? && !o.ContentChanged?
  {
  }

  lemma InRangeOffset(r: Request)
    requires InRange(r)
    ensures 0 <= r.offset <= Total(r)
  {
  }

  lemma FirstPage(r: Request, o: Outcome)
    requires InRange(r) && Unchanged(r) && Exact(r, o)
    ensures !o.InvalidInput? && !o.ContentChanged? && 0 <= r.offset <= Total(r)
    ensures o.Ok? && o.page.nextContentOffset.None? ==> o.page.content == r.source.content[r.offset..]
    ensures o.Ok? && o.page.nextContentOffset.Some? ==>
              var next := Continue(r, o.page);
              && r.offset < next.offset < Total(r) && o.page.content == r.source.content[r.offset..next.offset]
              && Unchanged(next) && (InRange(next) <==> next.offset <= MAX_OFFSET)
  {
    NotRefused(r, o);
    InRangeOffset(r);
    hide Exact, Unchanged, InRange, Continue;
    if o.Ok? { PageGiven(r, o); }
  }

  lemma PageGiven(r: Request, o: Outcome)
    requires Exact(r, o) && o.Ok?
    ensures o.page.nextContentOffset.None? ==> o.page.content == r.source.content[r.offset..]
    ensures o.page.nextContentOffset.Some? ==>
              var next := Continue(r, o.page);
              && r.offset < next.offset < Total(r) && o.page.content == r.source.content[r.offset..next.offset]
              && Unchanged(next) && (InRange(next) <==> next.offset <= MAX_OFFSET)
  {
    GivesSomething(r, o);
    PagesSayWhatTheyAre(r, o);
    hide Exact, InRange, Unchanged;
    if o.page.nextContentOffset.Some? { ContinuationAccepted(r, o.page); }
  }

  lemma GivesSomething(r: Request, o: Outcome)
    requires Exact(r, o) && o.Ok?
    ensures InRange(r) && (r.offset < Total(r) ==> |o.page.content| >= 1)
  {
    PagesMakeProgress(r, o);
  }

  lemma SliceJoins(t: Text, m: nat, n: nat)
    requires m <= n <= |t|
    ensures t[m..n] + t[n..] == t[m..]
  {
  }

  /** The continuation a page names is accepted exactly up to the largest offset the tool
      takes: content a page says continues past it cannot be read to its end. */
  lemma ContinuationAccepted(r: Request, page: Page)
    requires InRange(r) && page.nextContentOffset.Some? && page.nextContentOffset.value <= Total(r)
            && page.contentHash == DigestOf(r.source)
    ensures InRange(Continue(r, page)) <==> page.nextContentOffset.value <= MAX_OFFSET
    ensures Unchanged(Continue(r, page))
  {
  }

  lemma RefusedStops(r: Request, pages: seq<Outcome>)
    requires Followed(r, pages) && !InRange(r)
    ensures |pages| == 1 && pages[0].InvalidInput?
  {
  }

  /** A page of 200 002 characters read one at a time that names an offset nobody may ask for. */
  lemma DeadEndWitness()
    ensures exists r: Request, page: Page ::
              && Exact(r, Ok(page)) && page.nextContentOffset == Some(200001)
              && Exact(Continue(r, page), InvalidInput)
  {
    var source := Source(Letters(200002), false, "", 0);
    var r := Request(1, source, 200000, 1, MAX_SAFE_INTEGER, Some(DigestOf(source)));
    SmallPage(r, 0);
    SmallPage(r, 1);
    assert Room(r) == 1 && Found(r, 1) && Trimmed(r, 1) == 1;
    assert Served(r, 1, Build(r, 1));
    assert Exact(r, Ok(Build(r, 1))) && Exact(Continue(r, Build(r, 1)), InvalidInput);
  }

  lemma SmallPage(r: Request, n: nat)
    requires InRange(r) && n <= 1 && r.offset + n <= Total(r) <= 200002 && r.source.rest == 0
             && r.maxOutputChars == MAX_SAFE_INTEGER
    ensures Fits(r, n)
  {
    DigitsGrow(r.offset, 999999);
    DigitsGrow(Total(r), 999999);
    if r.offset + n < Total(r) { DigitsGrow(r.offset + n, 999999); }
    LongerTextCostsMore(r.source.content[r.offset..], 0, n);
    assert Digits(999999) < 1000 by { assert Digits(99999) == 1 + Digits(9999) && Digits(9999) == 4; }
  }

  /** So every page at the last accepted offset that is not the last page is a dead end. */
  lemma LongContentIsNeverFinished(r: Request, pages: seq<Outcome>)
    requires InRange(r) && Unchanged(r) && Followed(r, pages) && r.offset == MAX_OFFSET
    requires pages[0].Ok? && pages[0].page.nextContentOffset.Some?
    ensures |pages| == 2 && pages[1].InvalidInput?
  {
    PagesMakeProgress(r, pages[0]);
    ContinuationAccepted(r, pages[0].page);
    RefusedStops(Continue(r, pages[0].page), pages[1..]);
  }
}
