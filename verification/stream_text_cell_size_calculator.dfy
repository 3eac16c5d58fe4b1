/** StreamTextCellSizeCalculator: measures the rendered height of the rich-text
    items of a stream against one shared, hidden web view. Batches (cell jobs)
    are queued first-in first-out; the head batch's pending items are rendered
    one at a time, each finished load resolving the head item.

    The web view is an external event source: every `loadHTMLString` the
    calculator issues is appended to `renders`, and `webViewDidFinishLoad` is
    the input method `WebViewDidFinishLoad`. Each batch's completion closure is
    identified by a number, and every call of it is appended to `completed`. */
module StreamCalculators {
  import opened Models

  /** StreamTextCellPresenter.commentMargin and .postMargin (60 and 15). */
  const CommentMargin: real := 60.0
  const PostMargin: real := 15.0

  /** The parts of a StreamCellItem the calculator reads and writes:
      whether it wraps a comment, the content of its TextRegion (if its type
      carries one) and the three heights a measurement fills in. */
  class StreamCellItem {
    const isComment: bool
    const textRegion: Option<string>
    var webContent: Option<real>
    var oneColumn: Option<real>
    var multiColumn: Option<real>

    constructor (isComment: bool, textRegion: Option<string>)
      ensures this.isComment == isComment && this.textRegion == textRegion
      ensures webContent == None && oneColumn == None && multiColumn == None
    {
      this.isComment := isComment;
      this.textRegion := textRegion;
      webContent, oneColumn, multiColumn := None, None, None;
    }

    /** Record one measured height in all three height fields. */
    method AssignHeights(height: real)
      modifies this`webContent, this`oneColumn, this`multiColumn
      ensures webContent == Some(height) && oneColumn == Some(height) && multiColumn == Some(height)
    {
      webContent, oneColumn, multiColumn := Some(height), Some(height), Some(height);
    }
  }

  /** One call of processCells: the items, the width, the column count and
      the identity of the completion closure. */
  datatype CellJob = CellJob(cellItems: seq<StreamCellItem>, width: real, columnCount: int, completion: nat)

  /** The `completion` field: the initial empty closure, or the closure that
      processJob installs for a job. */
  datatype Completion = NoCompletion | FinishJob(job: CellJob)

  /** One loadHTMLString request: the item whose TextRegion is rendered and
      the width the web view frame was given for it. */
  datatype RenderRequest = RenderRequest(item: StreamCellItem, width: real)

  predicate HasText(item: StreamCellItem) {
    item.textRegion.Some?
  }

  /** The width items are measured at: the full width for one column,
      otherwise the floor of one column's share less the spacing. */
  function EffectiveWidth(width: real, columnCount: int, columnSpacing: real): (w: real)
    requires columnCount != 0
    ensures columnCount == 1 ==> w == width
  {
    if columnCount == 1 then width
    else (width / columnCount as real - columnSpacing * (columnCount - 1) as real).Floor as real
  }

  /** With several columns the width is a whole number: the largest one not
      above a column's share of the width less the spacing between columns. */
  lemma EffectiveWidthBounds(width: real, columnCount: int, columnSpacing: real)
    requires columnCount != 0 && columnCount != 1
    ensures var w := EffectiveWidth(width, columnCount, columnSpacing);
      && w == w.Floor as real
      && w <= width / columnCount as real - columnSpacing * (columnCount - 1) as real < w + 1.0
  {
  }

  /** The web view width for one item: comments are indented by the comment
      margin, less the post margin already taken off maxWidth. */
  function RenderWidth(maxWidth: real, isComment: bool): (w: real)
    ensures isComment ==> w == maxWidth - 45.0
    ensures !isComment ==> w == maxWidth
  {
    if isComment then maxWidth - CommentMargin + PostMargin else maxWidth
  }

  /** The item as a one-item list when it gets a render request, else empty. */
  function IfText(item: StreamCellItem): seq<StreamCellItem> {
    if HasText(item) then [item] else []
  }

  /** The items that get a render request, in list order. */
  function TextItems(items: seq<StreamCellItem>): (r: seq<StreamCellItem>)
    ensures |r| <= |items|
  {
    if |items| == 0 then []
    else IfText(items[0]) + TextItems(items[1..])
  }

  /** The items that get a render request over a sequence of batches. */
  function AllText(jobs: seq<CellJob>): seq<StreamCellItem> {
    if |jobs| == 0 then [] else TextItems(jobs[0].cellItems) + AllText(jobs[1..])
  }

  /** The items of a list of render requests. */
  function Rendered(rs: seq<RenderRequest>): (items: seq<StreamCellItem>)
    ensures |items| == |rs|
  {
    if rs == [] then [] else Rendered(rs[..|rs| - 1]) + [rs[|rs| - 1].item]
  }

  /** The completion closures of a list of jobs. */
  function Ids(jobs: seq<CellJob>): (ids: seq<nat>)
    ensures |ids| == |jobs|
  {
    if jobs == [] then [] else Ids(jobs[..|jobs| - 1]) + [jobs[|jobs| - 1].completion]
  }

  /** Concatenation is associative. */
  lemma Assoc<T>(a: seq<T>, b: seq<T>, c: seq<T>)
    ensures (a + b) + c == a + (b + c)
  {
  }

  predicate IsSuffix<T(==)>(s: seq<T>, t: seq<T>) {
    |s| <= |t| && s == t[|t| - |s|..]
  }

  lemma SuffixTail<T>(s: seq<T>, t: seq<T>)
    requires IsSuffix(s, t) && |s| > 0
    ensures IsSuffix(s[1..], t)
  {
    assert s[1..] == t[|t| - |s| + 1..];
  }

  function HeadSet(items: seq<StreamCellItem>): set<StreamCellItem> {
    if items == [] then {} else {items[0]}
  }

  lemma {:induction false} TextItemsAppend(a: seq<StreamCellItem>, b: seq<StreamCellItem>)
    ensures TextItems(a + b) == TextItems(a) + TextItems(b)
  {
    if |a| == 0 {
      assert a + b == b;
    } else {
      var ab := a + b;
      assert ab[0] == a[0];
      assert ab[1..] == a[1..] + b;
      TextItemsAppend(a[1..], b);
      assert TextItems(ab) == IfText(a[0]) + TextItems(a[1..] + b);
    }
  }

  /** Dropping a leading item without a TextRegion leaves the render list as it was. */
  lemma TextItemsSkip(items: seq<StreamCellItem>)
    requires items != [] && !HasText(items[0])
    ensures TextItems(items[1..]) == TextItems(items)
  {
  }

  /** A leading item with a TextRegion is the first render of the list. */
  lemma TextItemsHead(items: seq<StreamCellItem>)
    requires items != [] && HasText(items[0])
    ensures TextItems(items) == [items[0]] + TextItems(items[1..])
  {
  }

  /** The render list holds exactly the items of the list that have a
      TextRegion. */
  lemma {:induction false} TextItemsFilter(items: seq<StreamCellItem>)
    ensures forall x :: x in TextItems(items) <==> x in items && HasText(x)
  {
    if |items| > 0 {
      TextItemsFilter(items[1..]);
      assert items == [items[0]] + items[1..];
    }
  }

  lemma {:induction false} AllTextAppend(jobs: seq<CellJob>, job: CellJob)
    ensures AllText(jobs + [job]) == AllText(jobs) + TextItems(job.cellItems)
  {
    if |jobs| == 0 {
      assert jobs + [job] == [job];
      assert AllText([job][1..]) == [];
    } else {
      var js := jobs + [job];
      assert js[0] == jobs[0];
      assert js[1..] == jobs[1..] + [job];
      AllTextAppend(jobs[1..], job);
      assert AllText(js) == TextItems(jobs[0].cellItems) + AllText(jobs[1..] + [job]);
    }
  }

  lemma RenderedAppend(rs: seq<RenderRequest>, r: RenderRequest)
    ensures Rendered(rs + [r]) == Rendered(rs) + [r.item]
  {
    assert (rs + [r])[..|rs|] == rs;
  }

  lemma IdsAppend(jobs: seq<CellJob>, job: CellJob)
    ensures Ids(jobs + [job]) == Ids(jobs) + [job.completion]
  {
    assert (jobs + [job])[..|jobs|] == jobs;
  }

  /** The calculator's fields, as one value; `submitted`, `finished` and
      `allText` are bookkeeping: every job ever submitted, those dequeued so
      far, and the text items of the submitted jobs in submission order. */
  datatype Snapshot = Snapshot(
    cellJobs: seq<CellJob>, cellItems: seq<StreamCellItem>, maxWidth: real,
    completion: Completion, frameWidth: real,
    renders: seq<RenderRequest>, completed: seq<nat>,
    submitted: seq<CellJob>, finished: seq<CellJob>, allText: seq<StreamCellItem>)

  /** The jobs queued behind the head job. */
  function Queued(s: Snapshot): seq<CellJob> {
    if |s.cellJobs| == 0 then [] else s.cellJobs[1..]
  }

  /** The render requests still owed: the pending items of the head job,
      then those of the jobs queued behind it. */
  function Pending(s: Snapshot): seq<StreamCellItem> {
    TextItems(s.cellItems) + AllText(Queued(s))
  }

  /** Invariant between and within events: jobs leave the queue in
      submission order, the pending items are the rest of the head job, whose
      closure is the installed completion and whose width is maxWidth. */
  ghost predicate Core(s: Snapshot, columnSpacing: real) {
    && s.submitted == s.finished + s.cellJobs
    && s.allText == AllText(s.submitted)
    && (forall j | j in s.cellJobs :: j.columnCount != 0)
    && (|s.cellJobs| == 0 ==> |s.cellItems| == 0)
    && (|s.cellJobs| == 0 && |s.finished| > 0 ==> s.completion == FinishJob(s.finished[|s.finished| - 1]))
    && (|s.cellJobs| == 0 && s.completion.FinishJob? ==> |s.finished| > 0)
    && (|s.cellJobs| > 0 ==>
          && s.completion == FinishJob(s.cellJobs[0])
          && IsSuffix(s.cellItems, s.cellJobs[0].cellItems)
          && s.maxWidth == EffectiveWidth(s.cellJobs[0].width, s.cellJobs[0].columnCount, columnSpacing))
  }

  /** Core, and every text item submitted has been requested or is pending. */
  ghost predicate Unsettled(s: Snapshot, columnSpacing: real) {
    Core(s, columnSpacing) && Rendered(s.renders) + Pending(s) == s.allText
  }

  /** Waiting on exactly one render, that of the head pending item at its
      width: the renders before it and the pending items are, in order, the
      text items of all submitted jobs. */
  ghost predicate Waiting(s: Snapshot) {
    && |s.cellItems| > 0 && HasText(s.cellItems[0]) && |s.renders| > 0
    && s.frameWidth == RenderWidth(s.maxWidth, s.cellItems[0].isComment)
    && s.renders[|s.renders| - 1] == RenderRequest(s.cellItems[0], s.frameWidth)
    && Rendered(s.renders[..|s.renders| - 1]) + Pending(s) == s.allText
  }

  /** Between events: idle with every submitted text item rendered, or
      waiting on the head pending item. */
  ghost predicate Settled(s: Snapshot, columnSpacing: real) {
    && Core(s, columnSpacing)
    && (|s.cellJobs| == 0 ==> Rendered(s.renders) == s.allText)
    && (|s.cellJobs| > 0 ==> Waiting(s))
  }

  /** Once idle, every text item of every job ever submitted has been
      requested exactly once, in submission order, and nothing else. */
  lemma IdleRendersAllSubmitted(s: Snapshot, columnSpacing: real)
    requires Settled(s, columnSpacing) && |s.cellJobs| == 0
    ensures Rendered(s.renders) == AllText(s.submitted)
  {
  }

  /** Once the last queued job is done, its closure stays installed: a
      further run of it, on an empty queue, calls that job's completion
      again and changes nothing else. */
  lemma IdleClosureRepeatsLastCompletion(s: Snapshot, columnSpacing: real)
    requires Settled(s, columnSpacing) && |s.cellJobs| == 0 && |s.finished| > 0
    ensures Completed(s, columnSpacing) ==
      s.(completed := s.completed + [s.finished[|s.finished| - 1].completion])
  {
  }

  /** The queue after a job is appended behind a running one. */
  function Appended(s: Snapshot, job: CellJob): Snapshot {
    s.(cellJobs := s.cellJobs + [job], submitted := s.submitted + [job],
       allText := s.allText + TextItems(job.cellItems))
  }

  lemma AppendedPending(s: Snapshot, job: CellJob)
    requires |s.cellJobs| > 0
    ensures Pending(Appended(s, job)) == Pending(s) + TextItems(job.cellItems)
  {
    var t := Appended(s, job);
    assert t.cellJobs[1..] == s.cellJobs[1..] + [job];
    AllTextAppend(s.cellJobs[1..], job);
    Assoc(TextItems(s.cellItems), AllText(s.cellJobs[1..]), TextItems(job.cellItems));
  }

  /** allText stays the text items of the submitted jobs, in submission
      order, when a job is queued. */
  lemma AllTextTracksSubmitted(s: Snapshot, job: CellJob)
    requires s.allText == AllText(s.submitted)
    ensures Appended(s, job).allText == AllText(Appended(s, job).submitted)
  {
    AllTextAppend(s.submitted, job);
  }

  lemma AppendJobKeepsCore(s: Snapshot, columnSpacing: real, job: CellJob)
    requires Core(s, columnSpacing) && |s.cellJobs| > 0 && job.columnCount != 0
    ensures Core(Appended(s, job), columnSpacing)
  {
    var t := Appended(s, job);
    assert t.cellJobs[0] == s.cellJobs[0];
    AllTextTracksSubmitted(s, job);
  }

  lemma AppendJobKeepsValid(s: Snapshot, columnSpacing: real, job: CellJob)
    requires Settled(s, columnSpacing) && |s.cellJobs| > 0 && job.columnCount != 0
    ensures Settled(Appended(s, job), columnSpacing)
  {
    var t := Appended(s, job);
    AppendJobKeepsCore(s, columnSpacing, job);
    AppendedPending(s, job);
    var prefix := Rendered(s.renders[..|s.renders| - 1]);
    Assoc(prefix, Pending(s), TextItems(job.cellItems));
  }

  /** processJob on an idle calculator, before its loadNext call: the new
      job is queued and its closure, items and width are installed. */
  function Started(s: Snapshot, columnSpacing: real, job: CellJob): Snapshot
    requires job.columnCount != 0
  {
    Appended(s, job).(completion := FinishJob(job), cellItems := job.cellItems,
                      maxWidth := EffectiveWidth(job.width, job.columnCount, columnSpacing))
  }

  lemma StartJobIsUnsettled(s: Snapshot, columnSpacing: real, job: CellJob)
    requires Settled(s, columnSpacing) && |s.cellJobs| == 0 && job.columnCount != 0
    ensures Unsettled(Started(s, columnSpacing, job), columnSpacing)
  {
    var t := Started(s, columnSpacing, job);
    assert Pending(t) == TextItems(job.cellItems);
    assert t.submitted == t.finished + t.cellJobs;
    AllTextTracksSubmitted(s, job);
  }

  /** assignCellHeight's effect on the calculator: the head pending item, if
      any, leaves the list. */
  function Assigned(s: Snapshot): Snapshot {
    if |s.cellItems| > 0 then s.(cellItems := s.cellItems[1..]) else s
  }

  lemma SkipKeepsUnsettled(s: Snapshot, columnSpacing: real)
    requires Unsettled(s, columnSpacing) && |s.cellItems| > 0 && !HasText(s.cellItems[0])
    ensures Unsettled(s.(cellItems := s.cellItems[1..]), columnSpacing)
  {
    TextItemsSkip(s.cellItems);
    SuffixTail(s.cellItems, s.cellJobs[0].cellItems);
  }

  lemma RenderSettles(s: Snapshot, columnSpacing: real)
    requires Unsettled(s, columnSpacing) && |s.cellItems| > 0 && HasText(s.cellItems[0])
    requires s.frameWidth == RenderWidth(s.maxWidth, s.cellItems[0].isComment)
    ensures Settled(s.(renders := s.renders + [RenderRequest(s.cellItems[0], s.frameWidth)]), columnSpacing)
  {
    var t := s.(renders := s.renders + [RenderRequest(s.cellItems[0], s.frameWidth)]);
    assert t.renders[..|t.renders| - 1] == s.renders;
  }

  lemma AssignKeepsCore(s: Snapshot, columnSpacing: real)
    requires Core(s, columnSpacing) && |s.cellItems| > 0
    ensures Core(s.(cellItems := s.cellItems[1..]), columnSpacing)
  {
    SuffixTail(s.cellItems, s.cellJobs[0].cellItems);
  }

  /** Resolving the head text item moves it from the owed items to the
      rendered ones, keeping their concatenation. */
  lemma OwedAfterResolve(rendered: seq<StreamCellItem>, items: seq<StreamCellItem>,
                         queued: seq<StreamCellItem>, allText: seq<StreamCellItem>)
    requires |items| > 0 && HasText(items[0])
    requires rendered + (TextItems(items) + queued) == allText
    ensures (rendered + [items[0]]) + (TextItems(items[1..]) + queued) == allText
  {
    TextItemsHead(items);
    var rest := TextItems(items[1..]);
    Assoc([items[0]], rest, queued);
    Assoc(rendered, [items[0]], rest + queued);
  }

  lemma AssignKeepsUnsettled(s: Snapshot, columnSpacing: real)
    requires Settled(s, columnSpacing) && |s.cellItems| > 0
    ensures Unsettled(s.(cellItems := s.cellItems[1..]), columnSpacing)
  {
    AssignKeepsCore(s, columnSpacing);
    var prefix := s.renders[..|s.renders| - 1];
    var last := RenderRequest(s.cellItems[0], s.frameWidth);
    assert s.renders == prefix + [last];
    RenderedAppend(prefix, last);
    OwedAfterResolve(Rendered(prefix), s.cellItems, AllText(Queued(s)), s.allText);
  }

  /** The completion closure of the head job, once its pending list is empty:
      the job leaves the queue and the next one (if any) starts. */
  function Dequeued(s: Snapshot, columnSpacing: real): Snapshot
    requires |s.cellJobs| > 0 && s.completion.FinishJob?
    requires forall j | j in s.cellJobs :: j.columnCount != 0
  {
    var rest := s.cellJobs[1..];
    var t := s.(cellJobs := rest, finished := s.finished + [s.cellJobs[0]],
                completed := s.completed + [s.completion.job.completion]);
    if |rest| == 0 then t
    else
      assert rest[0] in s.cellJobs;
      t.(completion := FinishJob(rest[0]), cellItems := rest[0].cellItems,
         maxWidth := EffectiveWidth(rest[0].width, rest[0].columnCount, columnSpacing))
  }

  lemma DequeueKeepsUnsettled(s: Snapshot, columnSpacing: real)
    requires Unsettled(s, columnSpacing) && |s.cellItems| == 0 && |s.cellJobs| > 0
    ensures Unsettled(Dequeued(s, columnSpacing), columnSpacing)
    ensures Dequeued(s, columnSpacing).completed == s.completed + [s.cellJobs[0].completion]
  {
    var c := s.cellJobs;
    assert c == [c[0]] + c[1..];
    assert s.finished + c == (s.finished + [c[0]]) + c[1..];
    var t := Dequeued(s, columnSpacing);
    assert Pending(s) == AllText(c[1..]);
    if |c| > 1 {
      assert Queued(t) == c[1..][1..];
      assert Pending(t) == AllText(c[1..]);
    }
  }

  /** The closure processJob installs, run on state s: with jobs queued it
      is Dequeued; with none it only calls the completion of the job it was
      made for. The closure installed at construction does nothing. */
  function Completed(s: Snapshot, columnSpacing: real): Snapshot
    requires forall j | j in s.cellJobs :: j.columnCount != 0
    requires |s.cellJobs| > 0 ==> s.completion.FinishJob?
  {
    match s.completion
    case NoCompletion => s
    case FinishJob(job) =>
      if |s.cellJobs| == 0 then s.(completed := s.completed + [job.completion])
      else Dequeued(s, columnSpacing)
  }

  lemma CompletedKeepsUnsettled(s: Snapshot, columnSpacing: real)
    requires Unsettled(s, columnSpacing) && |s.cellItems| == 0
    ensures Unsettled(Completed(s, columnSpacing), columnSpacing)
  {
    if |s.cellJobs| > 0 {
      DequeueKeepsUnsettled(s, columnSpacing);
    }
  }

  /** The number of jobs loadNext has finished, going from s0 to s. */
  function Done(s0: Snapshot, s: Snapshot): int {
    |s0.cellJobs| - |s.cellJobs|
  }

  /** Loop invariant of loadNext, started on s0 and now at s: the finished
      jobs are a prefix of the queue and their completions were called in
      queue order; nothing was rendered; while the head job is the same, its
      text items are still pending. */
  ghost predicate Progress(s0: Snapshot, s: Snapshot) {
    && s.submitted == s0.submitted && s.allText == s0.allText && s.renders == s0.renders
    && 0 <= Done(s0, s) && s.cellJobs == s0.cellJobs[Done(s0, s)..]
    && s.finished == s0.finished + s0.cellJobs[..Done(s0, s)]
    && (|s0.cellJobs| > 0 ==>
          |s.cellJobs| > 0 && s.completed == s0.completed + Ids(s0.cellJobs[..Done(s0, s)]))
    && (|s0.cellJobs| == 0 ==> s.completed == s0.completed && s.completion == s0.completion)
    && (Done(s0, s) == 0 ==> TextItems(s.cellItems) == TextItems(s0.cellItems))
    && (|s0.cellJobs| > 0 && |TextItems(s0.cellItems)| > 0 ==> Done(s0, s) == 0)
  }

  /** What one loadNext call does, from s0 to s1: it finishes a prefix of the
      queue, calling the completions of those jobs in queue order (or, with
      nothing queued, the installed closure once); it then either stops idle
      without rendering, or requests exactly one render. When the head job
      still had text to render, that render is of its first such item. */
  ghost predicate LoadNextEffect(s0: Snapshot, s1: Snapshot) {
    && s1.submitted == s0.submitted && s1.allText == s0.allText
    && 0 <= Done(s0, s1) && s1.cellJobs == s0.cellJobs[Done(s0, s1)..]
    && s1.finished == s0.finished + s0.cellJobs[..Done(s0, s1)]
    && (|s0.cellJobs| > 0 ==> s1.completed == s0.completed + Ids(s0.cellJobs[..Done(s0, s1)]))
    && (|s0.cellJobs| == 0 ==>
          s1.completed == s0.completed + (if s0.completion.FinishJob? then [s0.completion.job.completion] else []))
    && (|s1.cellJobs| == 0 ==> s1.renders == s0.renders)
    && (|s1.cellJobs| > 0 ==> |s1.renders| > 0 && s1.renders[..|s1.renders| - 1] == s0.renders)
    && (|s0.cellJobs| > 0 && |TextItems(s0.cellItems)| > 0 ==>
          && s1.cellJobs == s0.cellJobs
          && |s1.cellItems| > 0 && s1.cellItems[0] == TextItems(s0.cellItems)[0])
    && (|s0.cellJobs| > 0 && |TextItems(s0.cellItems)| == 0 ==> Done(s0, s1) > 0)
  }

  lemma ProgressStarts(s0: Snapshot)
    ensures Progress(s0, s0)
  {
    assert s0.cellJobs[0..] == s0.cellJobs;
  }

  lemma SkipProgresses(s0: Snapshot, s: Snapshot, frameWidth: real)
    requires Progress(s0, s) && |s.cellItems| > 0 && !HasText(s.cellItems[0])
    ensures Progress(s0, s.(frameWidth := frameWidth, cellItems := s.cellItems[1..]))
  {
    TextItemsSkip(s.cellItems);
  }

  lemma RenderEnds(s0: Snapshot, s: Snapshot, frameWidth: real)
    requires Progress(s0, s) && |s.cellItems| > 0 && HasText(s.cellItems[0]) && |s.cellJobs| > 0
    ensures LoadNextEffect(s0, s.(frameWidth := frameWidth,
                                  renders := s.renders + [RenderRequest(s.cellItems[0], frameWidth)]))
  {
    TextItemsHead(s.cellItems);
  }

  lemma IdleEnds(s0: Snapshot, s: Snapshot, columnSpacing: real)
    requires Progress(s0, s) && |s.cellItems| == 0 && |s.cellJobs| == 0
    requires Core(s, columnSpacing)
    ensures LoadNextEffect(s0, Completed(s, columnSpacing))
  {
  }

  lemma DequeueProgresses(s0: Snapshot, s: Snapshot, columnSpacing: real)
    requires Progress(s0, s) && |s.cellItems| == 0 && |s.cellJobs| > 0
    requires (forall j | j in s.cellJobs :: j.columnCount != 0) && s.completion == FinishJob(s.cellJobs[0])
    ensures |Completed(s, columnSpacing).cellJobs| > 0 ==> Progress(s0, Completed(s, columnSpacing))
    ensures |Completed(s, columnSpacing).cellJobs| == 0 ==> LoadNextEffect(s0, Completed(s, columnSpacing))
  {
    var d := Done(s0, s);
    var t := Completed(s, columnSpacing);
    var head := s.cellJobs[0];
    assert t == Dequeued(s, columnSpacing);
    assert head == s0.cellJobs[d];
    assert t.cellJobs == s0.cellJobs[d + 1..];
    assert Done(s0, t) == d + 1;
    assert s0.cellJobs[..d + 1] == s0.cellJobs[..d] + [head];
    assert t.finished == (s0.finished + s0.cellJobs[..d]) + [head];
    Assoc(s0.finished, s0.cellJobs[..d], [head]);
    IdsAppend(s0.cellJobs[..d], head);
    assert t.completed == (s0.completed + Ids(s0.cellJobs[..d])) + [head.completion];
    Assoc(s0.completed, Ids(s0.cellJobs[..d]), [head.completion]);
    assert d == 0 ==> TextItems(s0.cellItems) == [];
  }

  /** loadNext on an empty pending list: the closure either ends the call
      idle or starts the next job, still within loadNext's invariant. */
  lemma FinishKeepsProgress(s0: Snapshot, s: Snapshot, columnSpacing: real)
    requires Unsettled(s, columnSpacing) && Progress(s0, s) && |s.cellItems| == 0
    ensures Unsettled(Completed(s, columnSpacing), columnSpacing)
    ensures |Completed(s, columnSpacing).cellJobs| > 0 ==>
      Progress(s0, Completed(s, columnSpacing)) && |Completed(s, columnSpacing).cellJobs| < |s.cellJobs|
    ensures |Completed(s, columnSpacing).cellJobs| == 0 ==>
      Settled(Completed(s, columnSpacing), columnSpacing) && LoadNextEffect(s0, Completed(s, columnSpacing))
  {
    CompletedKeepsUnsettled(s, columnSpacing);
    if |s.cellJobs| == 0 {
      IdleEnds(s0, s, columnSpacing);
    } else {
      DequeueProgresses(s0, s, columnSpacing);
    }
  }

  /** When the head job still has an item to render, loadNext requests
      exactly one render: its first text item, at that item's width. */
  lemma FirstRenderIsFirstTextItem(s0: Snapshot, s1: Snapshot, columnSpacing: real)
    requires Unsettled(s0, columnSpacing) && Settled(s1, columnSpacing) && LoadNextEffect(s0, s1)
    requires |s0.cellJobs| > 0 && |TextItems(s0.cellItems)| > 0
    ensures s1.renders ==
      s0.renders + [RenderRequest(TextItems(s0.cellItems)[0],
                                  RenderWidth(s0.maxWidth, TextItems(s0.cellItems)[0].isComment))]
  {
    var n := |s1.renders|;
    assert s1.renders == s1.renders[..n - 1] + [s1.renders[n - 1]];
  }

  class StreamTextCellSizeCalculator {
    /** StreamKind.Following.columnSpacing. */
    const columnSpacing: real
    var cellJobs: seq<CellJob>
    var cellItems: seq<StreamCellItem>
    var maxWidth: real
    var completion: Completion
    /** The width of the web view's frame. */
    var frameWidth: real
    /** Output logs: the web view loads requested, and the completion
        closures called, in order. */
    var renders: seq<RenderRequest>
    var completed: seq<nat>
    ghost var submitted: seq<CellJob>
    ghost var finished: seq<CellJob>
    ghost var allText: seq<StreamCellItem>

    ghost function State(): Snapshot
      reads this
    {
      Snapshot(cellJobs, cellItems, maxWidth, completion, frameWidth, renders, completed,
               submitted, finished, allText)
    }

    ghost predicate Valid()
      reads this
    {
      Settled(State(), columnSpacing)
    }

    constructor (columnSpacing: real, frameWidth: real)
      ensures Valid()
      ensures this.columnSpacing == columnSpacing && this.frameWidth == frameWidth
      ensures cellJobs == [] && cellItems == [] && maxWidth == 0.0 && completion == NoCompletion
      ensures renders == [] && completed == [] && submitted == [] && allText == []
    {
      this.columnSpacing := columnSpacing;
      this.frameWidth := frameWidth;
      cellJobs, cellItems, maxWidth, completion := [], [], 0.0, NoCompletion;
      renders, completed := [], [];
      submitted, finished, allText := [], [], [];
    }

    /** processCells: queue the batch; start it only if the queue was empty. */
    method ProcessCells(items: seq<StreamCellItem>, width: real, columnCount: int, completionId: nat)
      requires Valid() && columnCount != 0
      modifies this
      ensures Valid()
      ensures |old(cellJobs)| > 0 ==>
        State() == Appended(old(State()), CellJob(items, width, columnCount, completionId))
      ensures |old(cellJobs)| == 0 ==>
        LoadNextEffect(Started(old(State()), columnSpacing, CellJob(items, width, columnCount, completionId)), State())
    {
      ghost var s := State();
      var job := CellJob(items, width, columnCount, completionId);
      Enqueue(job);
      if |cellJobs| == 1 {
        StartJobIsUnsettled(s, columnSpacing, job);
        ProcessJob(job);
        assert State() == Started(s, columnSpacing, job);
        LoadNext();
      } else {
        AppendJobKeepsValid(s, columnSpacing, job);
      }
    }

    /** cellJobs.append(job), with the bookkeeping of what was submitted. */
    method Enqueue(job: CellJob)
      modifies this`cellJobs, this`submitted, this`allText
      ensures State() == Appended(old(State()), job)
    {
      cellJobs := cellJobs + [job];
      submitted := submitted + [job];
      allText := allText + TextItems(job.cellItems);
    }

    /** processJob, up to its closing loadNext() call (made by the caller):
        install the job's completion, its items and its width. */
    method ProcessJob(job: CellJob)
      requires job.columnCount != 0
      modifies this`completion, this`cellItems, this`maxWidth
      ensures completion == FinishJob(job) && cellItems == job.cellItems
      ensures maxWidth == EffectiveWidth(job.width, job.columnCount, columnSpacing)
    {
      completion := FinishJob(job);
      cellItems := job.cellItems;
      maxWidth := EffectiveWidth(job.width, job.columnCount, columnSpacing);
    }

    /** The completion closure processJob installs; see Completed. */
    method RunCompletion()
      requires Unsettled(State(), columnSpacing) && |cellItems| == 0
      modifies this`cellJobs, this`finished, this`completed, this`completion, this`cellItems, this`maxWidth
      ensures State() == Completed(old(State()), columnSpacing)
      ensures Unsettled(State(), columnSpacing)
    {
      CompletedKeepsUnsettled(State(), columnSpacing);
      match completion
      case NoCompletion =>
      case FinishJob(job) =>
        if |cellJobs| > 0 {
          finished := finished + [cellJobs[0]];
          cellJobs := cellJobs[1..];
        }
        completed := completed + [job.completion];
        if |cellJobs| > 0 {
          ProcessJob(cellJobs[0]);
        }
    }

    /** loadNext, with its recursion (through skipped items and through the
        completion closure starting the next job) written as a loop. */
    method LoadNext()
      requires Unsettled(State(), columnSpacing)
      modifies this
      ensures Settled(State(), columnSpacing)
      ensures LoadNextEffect(old(State()), State())
    {
      ghost var s0 := State();
      ProgressStarts(s0);
      while true
        invariant Unsettled(State(), columnSpacing) && Progress(s0, State())
        decreases |cellJobs|, |cellItems|
      {
        if |cellItems| > 0 {
          if HasText(cellItems[0]) {
            RenderHead(s0);
            return;
          }
          SkipHead(s0);
        } else {
          var more := FinishHead(s0);
          if !more {
            return;
          }
        }
      }
    }

    /** loadNext on a text item: size the web view for it and load it. */
    method RenderHead(ghost s0: Snapshot)
      requires Unsettled(State(), columnSpacing) && Progress(s0, State())
      requires |cellItems| > 0 && HasText(cellItems[0])
      modifies this`frameWidth, this`renders
      ensures Settled(State(), columnSpacing) && LoadNextEffect(s0, State())
    {
      ghost var s := State();
      var width := RenderWidth(maxWidth, cellItems[0].isComment);
      RenderEnds(s0, s, width);
      RenderSettles(s.(frameWidth := width), columnSpacing);
      frameWidth := width;
      renders := renders + [RenderRequest(cellItems[0], frameWidth)];
    }

    /** loadNext on an item with no text: size the web view, drop the item. */
    method SkipHead(ghost s0: Snapshot)
      requires Unsettled(State(), columnSpacing) && Progress(s0, State())
      requires |cellItems| > 0 && !HasText(cellItems[0])
      modifies this`frameWidth, this`cellItems
      ensures Unsettled(State(), columnSpacing) && Progress(s0, State())
      ensures cellItems == old(cellItems)[1..]
    {
      ghost var s := State();
      var width := RenderWidth(maxWidth, cellItems[0].isComment);
      SkipProgresses(s0, s, width);
      SkipKeepsUnsettled(s.(frameWidth := width), columnSpacing);
      frameWidth := width;
      cellItems := cellItems[1..];
    }

    /** loadNext with no pending item: run the completion closure; more
        work remains only when it started the next job. */
    method FinishHead(ghost s0: Snapshot) returns (more: bool)
      requires Unsettled(State(), columnSpacing) && Progress(s0, State())
      requires |cellItems| == 0
      modifies this`cellJobs, this`finished, this`completed, this`completion, this`cellItems, this`maxWidth
      ensures Unsettled(State(), columnSpacing)
      ensures more ==> Progress(s0, State()) && |cellJobs| < |old(cellJobs)|
      ensures !more ==> Settled(State(), columnSpacing) && LoadNextEffect(s0, State())
    {
      FinishKeepsProgress(s0, State(), columnSpacing);
      RunCompletion();
      more := |cellJobs| > 0;
    }

    /** assignCellHeight: the head pending item, if any, leaves the list and
        its three heights are set to the measured height. */
    method AssignCellHeight(height: real)
      requires Valid()
      modifies this`cellItems, HeadSet(cellItems)
      ensures State() == Assigned(old(State()))
      ensures Unsettled(State(), columnSpacing)
      ensures |old(cellItems)| > 0 ==>
        && old(cellItems)[0].webContent == Some(height)
        && old(cellItems)[0].oneColumn == Some(height)
        && old(cellItems)[0].multiColumn == Some(height)
    {
      if |cellItems| > 0 {
        AssignKeepsUnsettled(State(), columnSpacing);
        cellItems[0].AssignHeights(height);
        cellItems := cellItems[1..];
      }
    }

    /** webViewDidFinishLoad, given the web view's content height (None when
        it reports no content size, which measures as 0). */
    method WebViewDidFinishLoad(contentHeight: Option<real>)
      requires Valid()
      modifies this, HeadSet(cellItems)
      ensures Valid()
      ensures |old(cellItems)| > 0 ==>
        && old(cellItems)[0].webContent == Some(contentHeight.GetOr(0.0))
        && old(cellItems)[0].oneColumn == Some(contentHeight.GetOr(0.0))
        && old(cellItems)[0].multiColumn == Some(contentHeight.GetOr(0.0))
      ensures LoadNextEffect(Assigned(old(State())), State())
      ensures |old(cellJobs)| == 0 && |old(finished)| > 0 ==>
        completed == old(completed) + [old(finished)[|old(finished)| - 1].completion]
    {
      ghost var s := State();
      AssignCellHeight(contentHeight.GetOr(0.0));
      assert State() == Assigned(s);
      LoadNext();
    }
  }
}
