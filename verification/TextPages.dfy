/** `paginateDocumentProjection` (src/core/document-result-text.ts): the longest page of
    a stored projection whose response fits the caller's output limit. The last page
    drops its continuation and may fit where a shorter page does not. */
module TextPages {
  import opened Basics
  import opened DurableStore
  import opened JsonText

  datatype Projection = Projection(kind: Text, content: Text, lossy: bool, omissions: seq<Text>, warnings: seq<Text>)

  datatype Request = Request(
    refId: Text, contentHash: Text, projection: Projection, contentOffset: int, maxContentChars: int,
    maxOutputChars: int, extractionStatus: Text)

  datatype Notes = Notes(omissions: seq<Text>, warnings: seq<Text>, truncated: bool)

  datatype Page = Page(
    content: Text, contentOffset: nat, nextContentOffset: Option<nat>, totalContentChars: nat, notes: Notes)

  datatype Outcome = Ok(page: Page) | InvalidInput | OutputLimit

  predicate InRange(r: Request) {
    && 0 <= r.contentOffset <= MAX_SAFE_INTEGER && 1 <= r.maxContentChars <= 50000
    && 1 <= r.maxOutputChars <= MAX_SAFE_INTEGER && r.contentOffset <= |r.projection.content|
  }

  function Total(r: Request): nat { |r.projection.content| }

  /** As many characters as the page may have. */
  function Room(r: Request): nat
    requires InRange(r)
  {
    Min(r.maxContentChars, Total(r) - r.contentOffset)
  }

  /** A page must make progress while content remains. */
  function Least(r: Request): nat
    requires InRange(r)
    ensures Least(r) <= Room(r)
  {
    if r.contentOffset < Total(r) then 1 else 0
  }

  // ------------------------------------------------------------------ notes

  function Bounded(values: seq<Text>): seq<Text> {
    seq(Min(|values|, 3), i requires 0 <= i < Min(|values|, 3) => values[i][..Min(|values[i]|, 120)])
  }

  function FullNotes(p: Projection): Notes {
    Notes(Bounded(p.omissions), Bounded(p.warnings),
          Bounded(p.omissions) != p.omissions || Bounded(p.warnings) != p.warnings)
  }

  function NoNotes(p: Projection): Notes {
    var full := FullNotes(p);
    Notes([], [], full.truncated || |full.omissions| > 0 || |full.warnings| > 0)
  }

  // ------------------------------------------------------------------ the size of a response

  const END := "End of saved projection; this does not certify complete extraction of the source."
  const MORE := "Follow nextAction until nextContentOffset is null. This page is not the full saved projection."
  // what stands between the values of a response
  const AT_REF := "{\"ok\":true,\"data\":{\"refId\":\""
  const AT_CONTENT := "\",\"content\":\""
  const AT_KIND := "\",\"projectionKind\":\""
  const AT_OFFSET := "\",\"contentOffset\":"
  const AT_NEXT := ",\"nextContentOffset\":"
  const AT_TOTAL := ",\"totalContentChars\":"
  const AT_HASH := ",\"contentHash\":\""
  const AT_STATUS := "\",\"extractionStatus\":\""
  const AT_LOSSY := "\",\"lossy\":"
  const AT_OMISSIONS := ",\"omissions\":["
  const AT_WARNINGS := "],\"warnings\":["
  const AT_TRUNCATED := "],\"metadataTruncated\":"
  const AT_INSTRUCTION := ",\"instruction\":\""
  const AFTER_INSTRUCTION := "\""
  const CLOSE := "}}"
  const AT_ACTION := ",\"nextAction\":{\"tool\":\"document_result_read_text\",\"arguments\":{\"refId\":\""
  const AT_ACTION_OFFSET := "\",\"contentOffset\":"
  const AT_ACTION_MAX := ",\"maxContentChars\":"

  const HEAD_SIZE := |AT_REF| + |AT_CONTENT| + |AT_KIND| + |AT_OFFSET| + |AT_NEXT| + |AT_TOTAL| + |AT_HASH|
                     + |AT_STATUS| + |AT_LOSSY|
  const NOTE_SIZE := |AT_OMISSIONS| + |AT_WARNINGS| + |AT_TRUNCATED|
  const ENDING_SIZE := |AT_INSTRUCTION| + |AFTER_INSTRUCTION| + |CLOSE|
  const SKELETON_SIZE := HEAD_SIZE + NOTE_SIZE + ENDING_SIZE
  const ACTION_SIZE := |AT_ACTION| + |AT_ACTION_OFFSET| + |AT_ACTION_MAX| + |CLOSE|

  function BoolSize(b: bool): nat { if b then 4 else 5 }

  function ListSize(values: seq<Text>): nat {
    if values == [] then 0
    else ListSize(values[..|values| - 1]) + 2 + TextUnits(values[|values| - 1]) + (if |values| > 1 then 1 else 0)
  }

  function NotesSize(n: Notes): nat { ListSize(n.omissions) + ListSize(n.warnings) + BoolSize(n.truncated) }

  function FixedSize(r: Request): nat
    requires InRange(r)
  {
    SKELETON_SIZE + TextUnits(r.refId) + TextUnits(r.projection.kind) + Digits(r.contentOffset) + Digits(Total(r))
      + TextUnits(r.contentHash)
    + TextUnits(r.extractionStatus) + BoolSize(r.projection.lossy)
  }

  function TailSize(r: Request, end: nat): nat
    requires InRange(r)
  {
    if end < Total(r) then
      2 * Digits(end) + |MORE| + ACTION_SIZE + TextUnits(r.refId) + Digits(r.maxContentChars)
    else 4 + |END|
  }

  /** The length of the response that carries `n` characters. */
  function Size(r: Request, notes: Notes, n: nat): nat
    requires InRange(r) && n <= Room(r)
  {
    FixedSize(r) + NotesSize(notes) + TextUnits(r.projection.content[r.contentOffset..][..n])
      + TailSize(r, r.contentOffset + n)
  }

  // ------------------------------------------------------------------ the response itself

  function Listed(values: seq<Text>): seq<Unit> {
    if values == [] then []
    else Listed(values[..|values| - 1]) + (if |values| > 1 then Ascii(",") else []) + Quoted(values[|values| - 1])
  }

  function Truth(b: bool): (u: seq<Unit>)
    ensures |u| == BoolSize(b)
  {
    if b then Ascii("true") else Ascii("false")
  }

  function Null(): (u: seq<Unit>)
    ensures |u| == 4
  {
    Ascii("null")
  }

  /** The fields every page has, up to the notes. */
  function Head(r: Request, n: nat): seq<Unit>
    requires InRange(r) && n <= Room(r)
  {
    var end := r.contentOffset + n;
    Ascii(AT_REF) + Written(r.refId)
    + Ascii(AT_CONTENT) + Written(r.projection.content[r.contentOffset..][..n])
    + Ascii(AT_KIND) + Written(r.projection.kind)
    + Ascii(AT_OFFSET) + Decimal(r.contentOffset)
    + Ascii(AT_NEXT) + (if end < Total(r) then Decimal(end) else Null())
    + Ascii(AT_TOTAL) + Decimal(Total(r))
    + Ascii(AT_HASH) + Written(r.contentHash)
    + Ascii(AT_STATUS) + Written(r.extractionStatus)
    + Ascii(AT_LOSSY) + Truth(r.projection.lossy)
  }

  function NoteFields(notes: Notes): seq<Unit> {
    Ascii(AT_OMISSIONS) + Listed(notes.omissions) + Ascii(AT_WARNINGS) + Listed(notes.warnings)
    + Ascii(AT_TRUNCATED) + Truth(notes.truncated)
  }

  function Ending(r: Request, end: nat): seq<Unit>
    requires InRange(r)
  {
    Ascii(AT_INSTRUCTION) + Ascii(if end < Total(r) then MORE else END) + Ascii(AFTER_INSTRUCTION)
    + (if end < Total(r) then
         Ascii(AT_ACTION) + Written(r.refId) + Ascii(AT_ACTION_OFFSET) + Decimal(end)
         + Ascii(AT_ACTION_MAX) + Decimal(r.maxContentChars) + Ascii(CLOSE)
       else [])
    + Ascii(CLOSE)
  }

  /** The whole response as it is written. */
  function Response(r: Request, notes: Notes, n: nat): seq<Unit>
    requires InRange(r) && n <= Room(r)
  {
    Head(r, n) + NoteFields(notes) + Ending(r, r.contentOffset + n)
  }

  lemma {:induction false} ListedLength(values: seq<Text>)
    ensures |Listed(values)| == ListSize(values)
  {
    if values != [] {
      ListedLength(values[..|values| - 1]);
      WrittenLength(values[|values| - 1]);
    }
  }

  lemma HeadLength(r: Request, n: nat)
    requires InRange(r) && n <= Room(r)
    ensures var end := r.contentOffset + n;
            |Head(r, n)| ==
              HEAD_SIZE + TextUnits(r.refId) + TextUnits(r.projection.content[r.contentOffset..][..n])
              + TextUnits(r.projection.kind) + Digits(r.contentOffset)
              + (if end < Total(r) then Digits(end) else 4) + Digits(Total(r)) + TextUnits(r.contentHash)
              + TextUnits(r.extractionStatus) + BoolSize(r.projection.lossy)
  {
    hide Written, Decimal, TextUnits, Digits, Ascii;
    WrittenLength(r.refId);
    WrittenLength(r.projection.content[r.contentOffset..][..n]);
    WrittenLength(r.projection.kind);
    WrittenLength(r.contentHash);
    WrittenLength(r.extractionStatus);
    DecimalLength(r.contentOffset);
    DecimalLength(r.contentOffset + n);
    DecimalLength(Total(r));
  }

  lemma NoteFieldsLength(notes: Notes)
    ensures |NoteFields(notes)| == NOTE_SIZE + NotesSize(notes)
  {
    hide Listed, ListSize, Ascii;
    ListedLength(notes.omissions);
    ListedLength(notes.warnings);
  }

  lemma EndingLength(r: Request, end: nat)
    requires InRange(r)
    ensures |Ending(r, end)| + (if end < Total(r) then Digits(end) else 4) == ENDING_SIZE + TailSize(r, end)
  {
    hide Written, Decimal, TextUnits, Digits, Ascii;
    WrittenLength(r.refId);
    DecimalLength(end);
    DecimalLength(r.maxContentChars);
  }

  /** The size that is compared with the limit is the length of the response. */
  lemma SizeIsLength(r: Request, notes: Notes, n: nat)
    requires InRange(r) && n <= Room(r)
    ensures |Response(r, notes, n)| == Size(r, notes, n)
  {
    hide Head, NoteFields, Ending, TextUnits, Digits, NotesSize, TailSize;
    HeadLength(r, n);
    NoteFieldsLength(notes);
    EndingLength(r, r.contentOffset + n);
  }

  predicate Fits(r: Request, notes: Notes, n: nat)
    requires InRange(r) && n <= Room(r)
  {
    Size(r, notes, n) <= r.maxOutputChars
  }

  /** Pages that are not the last grow with their length. */
  lemma ShorterPageFits(r: Request, notes: Notes, m: nat, n: nat)
    requires InRange(r) && m <= n <= Room(r) && r.contentOffset + n < Total(r) && Fits(r, notes, n)
    ensures Fits(r, notes, m)
  {
    LongerTextCostsMore(r.projection.content[r.contentOffset..], m, n);
    DigitsGrow(r.contentOffset + m, r.contentOffset + n);
  }

  lemma DroppingNotesHelps(r: Request, n: nat)
    requires InRange(r) && n <= Room(r)
    ensures Size(r, NoNotes(r.projection), n) <= Size(r, FullNotes(r.projection), n)
  {
    var full := FullNotes(r.projection);
    if |full.omissions| > 0 { assert ListSize(full.omissions) >= 2; }
    if |full.warnings| > 0 { assert ListSize(full.warnings) >= 2; }
  }

  // ------------------------------------------------------------------ what a page should be

  ghost predicate SomeFits(r: Request, notes: Notes)
    requires InRange(r)
  {
    exists n | Least(r) <= n <= Room(r) :: Fits(r, notes, n)
  }

  predicate LongestFit(r: Request, notes: Notes, n: nat)
    requires InRange(r)
  {
    Least(r) <= n <= Room(r) && Fits(r, notes, n) && forall m | n < m <= Room(r) :: !Fits(r, notes, m)
  }

  function Build(r: Request, notes: Notes, n: nat): Page
    requires InRange(r) && n <= Room(r)
  {
    var end := r.contentOffset + n;
    Page(r.projection.content[r.contentOffset..end], r.contentOffset, if end < Total(r) then Some(end) else None,
         Total(r), notes)
  }

  /** Exactly: out of range is refused; otherwise the longest page that fits with the
      notes; if none does, the longest without them; if none does, the limit is reported. */
  ghost predicate Exact(r: Request, o: Outcome) {
    match o
    case InvalidInput => !InRange(r)
    case OutputLimit => InRange(r) && !SomeFits(r, FullNotes(r.projection)) && !SomeFits(r, NoNotes(r.projection))
    case Ok(page) =>
      && InRange(r)
      && var notes := if SomeFits(r, FullNotes(r.projection)) then FullNotes(r.projection) else NoNotes(r.projection);
      && LongestFit(r, notes, |page.content|) && page == Build(r, notes, |page.content|)
  }

  /** Notes as they are kept: at most three, each the first code points of its own, up to 120. */
  predicate CutShort(kept: seq<Text>, values: seq<Text>) {
    && |kept| == Min(3, |values|)
    && forall i | 0 <= i < |kept| :: kept[i] <= values[i] && |kept[i]| == Min(120, |values[i]|)
  }

  /** A page that is given carries the notes cut short, or none because no page fits with
      them, and says that notes are missing if and only if they are not those stored. */
  lemma NotesTellWhatIsMissing(r: Request, o: Outcome)
    requires Exact(r, o) && o.Ok?
    ensures var notes, p := o.page.notes, r.projection;
            && (notes.truncated <==> notes.omissions != p.omissions || notes.warnings != p.warnings)
            && (if SomeFits(r, FullNotes(p)) then
                  CutShort(notes.omissions, p.omissions) && CutShort(notes.warnings, p.warnings)
                else notes.omissions == notes.warnings == [])
  {
    var p := r.projection;
    assert p.omissions != [] ==> |Bounded(p.omissions)| > 0;
    assert p.warnings != [] ==> |Bounded(p.warnings)| > 0;
    assert p.omissions == [] ==> Bounded(p.omissions) == p.omissions;
    assert p.warnings == [] ==> Bounded(p.warnings) == p.warnings;
  }

  // ------------------------------------------------------------------ the search

  method BoundMetadata(values: seq<Text>) returns (out: seq<Text>)
    ensures out == Bounded(values)
  {
    out := [];
    while |out| < |values| && |out| < 3
      invariant |out| <= Min(|values|, 3)
      invariant forall i | 0 <= i < |out| :: out[i] == values[i][..Min(|values[i]|, 120)]
      decreases 3 - |out|
    {
      var value := values[|out|];
      var count := 0;
      while count < |value| && count < 120
        invariant 0 <= count <= |value| && count <= 120
      {
        count := count + 1;
      }
      out := out + [value[..count]];
    }
  }

  /** One pass: the characters that may go on the page, and how many there are in all. */
  method Collect(r: Request) returns (points: Text, total: nat)
    requires 0 <= r.contentOffset && 1 <= r.maxContentChars
    ensures total == Total(r)
    ensures r.contentOffset <= total ==>
              points == r.projection.content[r.contentOffset..Min(total, r.contentOffset + r.maxContentChars)]
  {
    points, total := [], 0;
    while total < |r.projection.content|
      invariant 0 <= total <= |r.projection.content|
      invariant total <= r.contentOffset ==> points == []
      invariant total > r.contentOffset ==>
                  points == r.projection.content[r.contentOffset..Min(total, r.contentOffset + r.maxContentChars)]
    {
      if total >= r.contentOffset && |points| < r.maxContentChars { points := points + [r.projection.content[total]]; }
      total := total + 1;
    }
  }

  /** Between a length that fits and one that does not: the longest that fits. */
  method Search(r: Request, notes: Notes, minimum: nat, longest: nat) returns (low: nat)
    requires InRange(r) && minimum == Least(r) && longest == Room(r) && Fits(r, notes, minimum)
            && !Fits(r, notes, longest)
    ensures LongestFit(r, notes, low)
  {
    hide Fits, Least;
    low := minimum;
    var high := longest;
    while low < high
      invariant minimum <= low <= high <= longest
      invariant Fits(r, notes, low) && forall m | high < m <= longest :: !Fits(r, notes, m)
    {
      var mid := (low + high + 1) / 2;
      if Fits(r, notes, mid) {
        low := mid;
      } else {
        forall m | mid - 1 < m <= longest ensures !Fits(r, notes, m) { TooLongStays(r, notes, mid, m); }
        high := mid - 1;
      }
    }
  }

  /** The page, found by one pass over the content and a binary search over lengths. */
  method Paginate(r: Request) returns (o: Outcome)
    ensures Exact(r, o)
  {
    hide Fits, SomeFits, FullNotes, NoNotes, Bounded;
    if r.contentOffset < 0 || r.contentOffset > MAX_SAFE_INTEGER || r.maxContentChars < 1 || r.maxContentChars > 50000
       || r.maxOutputChars < 1 || r.maxOutputChars > MAX_SAFE_INTEGER {
      return InvalidInput;
    }
    var points, total := Collect(r);
    if r.contentOffset > total { return InvalidInput; }
    var notes := Gather(r.projection);
    var high := |points|;
    assert high == Room(r);
    if Fits(r, notes, high) {
      FoundFits(r, notes, high);
      return Ok(Build(r, notes, high));
    }
    var minimum := if r.contentOffset < total then 1 else 0;
    if !Fits(r, notes, minimum) {
      NothingFits(r, notes);
      notes := NoNotes(r.projection);
    } else {
      FoundFits(r, notes, minimum);
    }
    if Fits(r, notes, high) { return Ok(Build(r, notes, high)); }
    if !Fits(r, notes, minimum) {
      NothingFits(r, notes);
      return OutputLimit;
    }
    var low := Search(r, notes, minimum, high);
    o := Ok(Build(r, notes, low));
  }

  method Gather(p: Projection) returns (notes: Notes)
    ensures notes == FullNotes(p)
  {
    var omissions := BoundMetadata(p.omissions);
    var warnings := BoundMetadata(p.warnings);
    notes := Notes(omissions, warnings, omissions != p.omissions || warnings != p.warnings);
  }

  lemma FoundFits(r: Request, notes: Notes, n: nat)
    requires InRange(r) && Least(r) <= n <= Room(r) && Fits(r, notes, n)
    ensures SomeFits(r, notes)
  {
  }

  /** When neither the shortest nor the longest page fits, none does. */
  lemma NothingFits(r: Request, notes: Notes)
    requires InRange(r) && !Fits(r, notes, Least(r)) && !Fits(r, notes, Room(r))
    ensures !SomeFits(r, notes)
  {
    forall n | Least(r) <= n <= Room(r) ensures !Fits(r, notes, n) {
      if n < Room(r) && Fits(r, notes, n) { ShorterPageFits(r, notes, Least(r), n); }
    }
  }

  lemma TooLongStays(r: Request, notes: Notes, n: nat, m: nat)
    requires InRange(r) && n <= m <= Room(r) && !Fits(r, notes, n) && !Fits(r, notes, Room(r))
    ensures !Fits(r, notes, m)
  {
    hide Fits;
    if m < Room(r) && Fits(r, notes, m) { ShorterPageFits(r, notes, n, m); }
  }

  // ------------------------------------------------------------------ what the specification means

  /** There is exactly one exact outcome, so the search computes a function. */
  lemma ExactIsUnique(r: Request, o: Outcome, q: Outcome)
    requires Exact(r, o) && Exact(r, q)
    ensures o == q
  {
    hide Fits, Build, FullNotes, NoNotes;
    if o.Ok? { ExactFits(r, o); }
    if q.Ok? { ExactFits(r, q); }
  }

  lemma ExactFits(r: Request, o: Outcome)
    requires Exact(r, o) && o.Ok?
    ensures InRange(r) && (SomeFits(r, FullNotes(r.projection)) || SomeFits(r, NoNotes(r.projection)))
  {
    hide Fits, Build, FullNotes, NoNotes;
    var n := |o.page.content|;
    assert Least(r) <= n <= Room(r);
  }

  /** The limit is reported exactly when no admissible page fits even without notes. */
  lemma OutputLimitExactly(r: Request, o: Outcome)
    requires Exact(r, o) && InRange(r)
    ensures o.OutputLimit? <==> forall n | Least(r) <= n <= Room(r) :: !Fits(r, NoNotes(r.projection), n)
  {
    if o.Ok? {
      var n := |o.page.content|;
      DroppingNotesHelps(r, n);
      assert Fits(r, NoNotes(r.projection), n);
    }
  }

  /** Every page makes progress, is a slice of the projection, and names where to go on. */
  lemma PagesMakeProgress(r: Request, o: Outcome)
    requires Exact(r, o) && o.Ok?
    ensures r.contentOffset < Total(r) ==> |o.page.content| >= 1
    ensures 0 <= r.contentOffset <= r.contentOffset + |o.page.content| <= Total(r)
    ensures o.page.content == r.projection.content[r.contentOffset..r.contentOffset + |o.page.content|]
    ensures o.page.nextContentOffset ==
              if r.contentOffset + |o.page.content| < Total(r) then Some(r.contentOffset + |o.page.content|) else None
  {
  }

  /** The answers a reader gets by following nextContentOffset, one outcome per page. */
  ghost predicate Followed(r: Request, pages: seq<Outcome>)
    decreases |pages|
  {
    && |pages| >= 1 && Exact(r, pages[0])
    && (if pages[0].Ok? && pages[0].page.nextContentOffset.Some?
        then |pages| >= 2 && Followed(r.(contentOffset := pages[0].page.nextContentOffset.value), pages[1..])
        else |pages| == 1)
  }

  function Joined(pages: seq<Outcome>): Text
    decreases |pages|
  {
    if pages == [] then [] else (if pages[0].Ok? then pages[0].page.content else []) + Joined(pages[1..])
  }

  /** Following offsets ends within one request per character, and unless the limit is
      reported on the way, the pages joined are the rest of the projection. */
  lemma {:induction false} FollowingPagesReadsEverything(r: Request, pages: seq<Outcome>)
    requires InRange(r) && Followed(r, pages) && Total(r) <= MAX_SAFE_INTEGER  // as every string's length is
    ensures |pages| <= Total(r) - r.contentOffset + 1
    ensures (forall i | 0 <= i < |pages| :: pages[i].Ok?) ==> Joined(pages) == r.projection.content[r.contentOffset..]
    ensures forall i | 0 <= i < |pages| :: !pages[i].InvalidInput?
    decreases |pages|
  {
    hide Exact;
    var first := pages[0];
    NotRefused(r, first);
    if first.Ok? { PagesMakeProgress(r, first); }
    if first.Ok? && first.page.nextContentOffset.Some? {
      var next := r.(contentOffset := first.page.nextContentOffset.value);
      FollowingPagesReadsEverything(next, pages[1..]);
      forall i | 0 <= i < |pages| ensures !pages[i].InvalidInput? {
        if i > 0 { assert pages[i] == pages[1..][i - 1]; }
      }
      if forall i | 0 <= i < |pages| :: pages[i].Ok? {
        assert forall i | 0 <= i < |pages| - 1 :: pages[1..][i] == pages[i + 1];
        SliceJoins(r.projection.content, r.contentOffset, next.contentOffset);
      }
    } else if first.Ok? {
      assert pages[1..] == [] && Joined(pages[1..]) == [];
      assert first.page.content + [] == first.page.content;
      assert r.projection.content[r.contentOffset..Total(r)] == r.projection.content[r.contentOffset..];
    }
  }

  lemma SliceJoins(t: Text, m: nat, n: nat)
    requires m <= n <= |t|
    ensures t[m..n] + t[n..] == t[m..]
  {
  }

  lemma NotRefused(r: Request, o: Outcome)
    requires Exact(r, o) && InRange(r)
    ensures !o.InvalidInput?
  {
  }

  /** A limit a caller can check beforehand: with this much room no page of the
      projection is ever refused. */
  function Enough(r: Request): nat
    requires InRange(r)
  {
    SKELETON_SIZE + TextUnits(r.refId) + TextUnits(r.projection.kind) + 3 * Digits(Total(r)) + TextUnits(r.contentHash)
    + TextUnits(r.extractionStatus) + 5 + 5 + 6 + |MORE| + ACTION_SIZE + TextUnits(r.refId) + Digits(Total(r))
    + Digits(r.maxContentChars) + 4 + |END|
  }

  lemma LeastFits(r: Request)
    requires InRange(r) && r.maxOutputChars >= Enough(r)
    ensures Fits(r, NoNotes(r.projection), Least(r))
  {
    NoNotesSize(r.projection);
    hide FullNotes, NoNotes, NotesSize, Bounded, Digits;
    var n := Least(r);
    LongerTextCostsMore(r.projection.content[r.contentOffset..], 0, n);
    DigitsGrow(r.contentOffset, Total(r));
    DigitsGrow(r.contentOffset + n, Total(r));
  }

  lemma NoNotesSize(p: Projection)
    ensures NotesSize(NoNotes(p)) <= 5
  {
    hide FullNotes;
  }

  lemma EnoughRoomNeverRefused(r: Request, o: Outcome)
    requires Exact(r, o) && InRange(r) && r.maxOutputChars >= Enough(r)
    ensures o.Ok?
  {
    LeastFits(r);
    hide Fits, NoNotes;
    OutputLimitExactly(r, o);
    NotRefused(r, o);
  }
}
