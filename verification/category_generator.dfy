/** CategoryGenerator: loads one category's page in two stages, the category
    itself (the header) and then its posts stream, and pushes the results to a
    stream destination.

    Each `load` adds a "done" operation to the generator's operation queue and,
    when the category is known, a "display posts" operation that depends on
    it. The queue is kept here as one `Generation` per load. The network
    fetches are outputs (`requests`) whose responses come back as input
    methods. The destination's calls are an output log (`calls`). Parsing
    JSON objects into display items is a function the generator is given. */
module Categories {
  import opened Models
  import opened LoadingTokens

  /** The placeholder sections of a stream (`StreamCellType.PlaceholderType`). */
  datatype PlaceholderType = CategoryHeader | CategoryPosts | ProfilePosts

  /** The cell types the generator creates itself; parsed items may have others. */
  datatype CellType = CategoryHeaderCell | PlaceholderCell | StreamLoadingCell | OtherCell(name: string)

  /** A StreamCellItem as a value: the object it wraps, its type and its
      placeholder section. */
  datatype CellItem = CellItem(jsonable: Option<Jsonable>, cellType: CellType, placeholderType: Option<PlaceholderType>)

  /** One call on the StreamDestination. A `replacePlaceholder` completion
      closure runs right after the replacement, so a call it makes is the
      next entry of the log. */
  datatype DestinationCall =
    | SetPlaceholders(items: seq<CellItem>)
    | ReplacePlaceholder(placeholder: PlaceholderType, items: seq<CellItem>)
    | SetPrimaryJSONAble(jsonable: Jsonable)
    | PrimaryJSONAbleNotFound
    | SetPagingEnabled(enabled: bool)

  /** A fetch the generator started: CategoryService.loadCategory or
      StreamService.loadStream, for the load `gen`, issued under `token`. */
  datatype Request =
    | CategoryRequest(slug: string, gen: nat, token: nat)
    | StreamRequest(endpoint: string, streamKind: StreamKind, gen: nat, token: nat)

  /** The state of one queued operation. `Armed` is a display operation that
      was run before its dependency finished: its items wait for it. */
  datatype OpState = Pending | Armed(items: seq<CellItem>) | Finished | Cancelled

  /** The operations one load added to the queue: its done operation and,
      when the category was known, its display-posts operation. */
  datatype Generation = Generation(done: OpState, display: Option<OpState>)

  /** headerItems: one CategoryHeader item wrapping the category, if any. */
  function HeaderItems(category: Option<Category>): (items: seq<CellItem>)
    ensures category.None? <==> items == []
    ensures category.Some? ==>
      && |items| == 1
      && items[0].cellType == CategoryHeaderCell
      && items[0].jsonable == Some(CategoryObject(category.value))
  {
    match category
    case None => []
    case Some(c) => [CellItem(Some(CategoryObject(c)), CategoryHeaderCell, None)]
  }

  /** The placeholders `load` shows first: the category header, then the posts. */
  function Placeholders(): (items: seq<CellItem>)
    ensures |items| == 2
    ensures items[0].placeholderType == Some(CategoryHeader) && items[1].placeholderType == Some(CategoryPosts)
    ensures items[0].cellType == PlaceholderCell && items[1].cellType == PlaceholderCell
  {
    [CellItem(None, PlaceholderCell, Some(CategoryHeader)), CellItem(None, PlaceholderCell, Some(CategoryPosts))]
  }

  /** The loading indicator shown while the posts are fetched. */
  function LoadingItems(): seq<CellItem> {
    [CellItem(None, StreamLoadingCell, None)]
  }

  predicate Terminal(st: OpState) {
    st == Finished || st == Cancelled
  }

  /** cancel on one operation: a finished operation stays finished. */
  function Cancel(st: OpState): (r: OpState)
    ensures Terminal(r)
    ensures Terminal(st) ==> r == st
  {
    if st == Finished then Finished else Cancelled
  }

  function CancelGeneration(g: Generation): Generation {
    Generation(Cancel(g.done), if g.display.Some? then Some(Cancel(g.display.value)) else None)
  }

  /** cancelAllOperations over the queue: every operation of every load
      is cancelled, in place. */
  function CancelAll(gens: seq<Generation>): (r: seq<Generation>)
    ensures |r| == |gens|
    ensures forall i | 0 <= i < |gens| :: r[i] == CancelGeneration(gens[i])
  {
    if |gens| == 0 then [] else [CancelGeneration(gens[0])] + CancelAll(gens[1..])
  }

  /** Every operation of every load has stopped: finished or cancelled. */
  predicate AllTerminal(gens: seq<Generation>) {
    forall i | 0 <= i < |gens| ::
      Terminal(gens[i].done) && (gens[i].display.Some? ==> Terminal(gens[i].display.value))
  }

  /** Operations that had stopped have the same state at `t` as at `s`. */
  predicate KeepsTerminal(s: seq<Generation>, t: seq<Generation>) {
    && |s| == |t|
    && (forall i | 0 <= i < |s| && Terminal(s[i].done) :: t[i].done == s[i].done)
    && (forall i | 0 <= i < |s| && s[i].display.Some? && Terminal(s[i].display.value) ::
          t[i].display == s[i].display)
  }

  /** After cancelAllOperations no operation can still run, and those that
      had finished are still finished. */
  lemma CancelAllStopsEverything(gens: seq<Generation>)
    ensures AllTerminal(CancelAll(gens))
    ensures KeepsTerminal(gens, CancelAll(gens))
  {
  }

  /** Cancelling twice is cancelling once. */
  lemma CancelAllIdempotent(gens: seq<Generation>)
    ensures CancelAll(CancelAll(gens)) == CancelAll(gens)
  {
  }

  /** run() on the done operation of load g: a pending one finishes; the
      display operation waiting on it, if armed, then runs and finishes, and
      its items are returned for display. A finished or cancelled done
      operation does not run again. */
  function RunDone(gens: seq<Generation>, g: nat): (r: (seq<Generation>, Option<seq<CellItem>>))
    requires g < |gens|
    ensures KeepsTerminal(gens, r.0)
    ensures r.0[g].done == (if gens[g].done == Pending then Finished else gens[g].done)
    ensures forall i | 0 <= i < |gens| && i != g :: r.0[i] == gens[i]
    ensures r.1.Some? <==> gens[g].done == Pending && gens[g].display.Some? && gens[g].display.value.Armed?
    ensures r.1.Some? ==> r.1.value == gens[g].display.value.items && r.0[g].display == Some(Finished)
    ensures r.1.None? ==> r.0[g].display == gens[g].display
  {
    var gen := gens[g];
    if gen.done != Pending then (gens, None)
    else match gen.display
      case Some(Armed(items)) => (gens[g := Generation(Finished, Some(Finished))], Some(items))
      case _ => (gens[g := gen.(done := Finished)], None)
  }

  /** run { display } on the display operation of load g: it runs now when
      its dependency has finished, waits armed while it is pending, and does
      nothing once cancelled (or already run). The items are returned when
      they are displayed now. */
  function RunDisplay(gens: seq<Generation>, g: nat, items: seq<CellItem>): (r: (seq<Generation>, Option<seq<CellItem>>))
    requires g < |gens|
    ensures KeepsTerminal(gens, r.0)
    ensures forall i | 0 <= i < |gens| && i != g :: r.0[i] == gens[i]
    ensures r.0[g].done == gens[g].done
    ensures r.1.Some? <==> gens[g].display == Some(Pending) && gens[g].done == Finished
    ensures r.1.Some? ==> r.1.value == items && r.0[g].display == Some(Finished)
    ensures gens[g].display == Some(Pending) && gens[g].done != Finished ==> r.0[g].display == Some(Armed(items))
    ensures gens[g].display != Some(Pending) ==> r.0 == gens
  {
    var gen := gens[g];
    if gen.display != Some(Pending) then (gens, None)
    else if gen.done == Finished then (gens[g := gen.(display := Some(Finished))], Some(items))
    else (gens[g := gen.(display := Some(Armed(items)))], None)
  }

  /** The posts of a load are shown at most once, and only after its done
      operation finished: whichever of the two runs second shows them, and
      the display operation is then finished for good. */
  lemma PostsShownOnceAfterDone(gens: seq<Generation>, g: nat, items: seq<CellItem>)
    requires g < |gens| && gens[g].done == Pending && gens[g].display == Some(Pending)
    ensures RunDisplay(gens, g, items).1 == None
    ensures RunDone(RunDisplay(gens, g, items).0, g).1 == Some(items)
    ensures RunDisplay(RunDone(gens, g).0, g, items).1 == Some(items)
    ensures RunDone(RunDone(RunDisplay(gens, g, items).0, g).0, g).1 == None
    ensures RunDisplay(RunDisplay(RunDone(gens, g).0, g, items).0, g, items).1 == None
  {
  }

  /** A cancelled display operation never shows its posts. */
  lemma CancelledNeverShown(gens: seq<Generation>, g: nat, items: seq<CellItem>)
    requires g < |gens| && gens[g].display == Some(Cancelled)
    ensures RunDisplay(gens, g, items).1 == None && RunDone(gens, g).1 == None
    ensures RunDisplay(gens, g, items).0[g].display == Some(Cancelled)
    ensures RunDone(gens, g).0[g].display == Some(Cancelled)
  {
  }

  /** The stale-response guard of the success callbacks as written: it
      compares the generator's `localToken`, read when the response arrives,
      with the latest token. */
  predicate AsWrittenGuard(loadingToken: LoadingToken, localToken: nat) {
    IsValidInitialPageLoadingToken(loadingToken, localToken)
  }

  /** The guard the loading token is meant to give: the token the request
      was issued under must still be the latest. */
  predicate FreshResponse(loadingToken: LoadingToken, request: Request) {
    IsValidInitialPageLoadingToken(loadingToken, request.token)
  }

  /** Two loads in a row: the first load's category response passes the
      guard as written, and is rejected by the intended guard. */
  lemma StaleCategoryResponseExample()
    ensures var (lt1, token1) := ResetInitialPageLoadingToken(Initial());
            var (lt2, token2) := ResetInitialPageLoadingToken(lt1);
            AsWrittenGuard(lt2, token2)
            && !FreshResponse(lt2, CategoryRequest("art", 0, token1))
  {
  }

  /** Under the intended guard only a response to the latest load is
      accepted: after any later reset it is refused. */
  lemma FreshResponseRejectsSuperseded(loadingToken: LoadingToken, request: Request)
    requires request.token <= loadingToken.current
    ensures !FreshResponse(ResetInitialPageLoadingToken(loadingToken).0, request)
  {
    ResetInvalidatesEarlier(loadingToken, request.token);
  }

  class CategoryGenerator {
    const streamKind: StreamKind
    /** Whether the (weak) destination is still there; calls on a missing
        destination do nothing. */
    const destinationAttached: bool
    /** StreamCellItemParser().parse for this stream kind and user. */
    const parse: seq<Jsonable> -> seq<CellItem>
    var category: Option<Category>
    /** Declared by the generator and never assigned. */
    var posts: Option<seq<Post>>
    var localToken: nat
    var loadingToken: LoadingToken
    /** The operation queue, one entry per load. */
    var gens: seq<Generation>
    var requests: seq<Request>
    var calls: seq<DestinationCall>

    ghost predicate Valid()
      reads this
    {
      && posts == None
      && localToken == loadingToken.current
      && (forall i | 0 <= i < |requests| :: requests[i].gen < |gens| && requests[i].token <= localToken)
      // setInitialCategory runs done before loadCategoryPosts queues the
      // display operation, both only when there is a category
      && (forall i | 0 <= i < |gens| && gens[i].display.Some? ::
            gens[i].done == Finished && !gens[i].display.value.Armed?)
    }

    /** What one call on the destination leaves in the log. */
    function Sent(call: DestinationCall): seq<DestinationCall>
      reads this
    {
      if destinationAttached then [call] else []
    }

    /** init: store the category and take a first loading token. */
    constructor (category: Option<Category>, streamKind: StreamKind, destinationAttached: bool,
                 parse: seq<Jsonable> -> seq<CellItem>)
      ensures Valid()
      ensures this.category == category && this.streamKind == streamKind
      ensures this.destinationAttached == destinationAttached && this.parse == parse
      ensures IsValidInitialPageLoadingToken(loadingToken, localToken) && localToken > Initial().current
      ensures gens == [] && requests == [] && calls == []
    {
      this.category := category;
      this.streamKind := streamKind;
      this.destinationAttached := destinationAttached;
      this.parse := parse;
      posts := None;
      var (lt, token) := ResetInitialPageLoadingToken(Initial());
      loadingToken, localToken := lt, token;
      gens, requests, calls := [], [], [];
    }

    /** load: queue a done operation, take a fresh token, show the
        placeholders, then show the known category and fetch the category
        and its posts. `reload` has no effect. */
    method Load(reload: bool)
      requires Valid()
      modifies this
      ensures Valid()
      ensures category == old(category) && posts == old(posts)
      ensures localToken > old(localToken)
      ensures forall i | 0 <= i < |requests| && requests[i].token <= old(localToken) ::
        !FreshResponse(loadingToken, requests[i])
      ensures forall i | 0 <= i < |requests| ::
        FreshResponse(loadingToken, requests[i]) <==> i >= |old(requests)|
      ensures category.None? ==>
        && gens == old(gens) + [Generation(Pending, None)]
        && requests == old(requests)
        && calls == old(calls) + Sent(SetPlaceholders(Placeholders()))
      ensures category.Some? ==>
        && gens == old(gens) + [Generation(Finished, Some(Pending))]
        && requests == old(requests) + [CategoryRequest(category.value.slug, |old(gens)|, localToken),
                                        StreamRequest(category.value.endpoint, streamKind, |old(gens)|, localToken)]
        && calls == old(calls) + Sent(SetPlaceholders(Placeholders()))
                               + Sent(SetPrimaryJSONAble(CategoryObject(category.value)))
                               + Sent(ReplacePlaceholder(CategoryHeader, HeaderItems(category)))
                               + Sent(ReplacePlaceholder(ProfilePosts, LoadingItems()))
    {
      gens := gens + [Generation(Pending, None)];
      var g := |gens| - 1;
      var (lt, token) := ResetInitialPageLoadingToken(loadingToken);
      forall i | 0 <= i < |requests| && requests[i].token <= localToken
        ensures !FreshResponse(lt, requests[i])
      {
        FreshResponseRejectsSuperseded(loadingToken, requests[i]);
      }
      loadingToken, localToken := lt, token;
      SetPlaceHolders();
      SetInitialCategory(g);
      LoadCategory(g);
      LoadCategoryPosts(g);
    }

    /** toggleGrid: show the posts again, when there are any. */
    method ToggleGrid()
      modifies this`calls
      ensures posts.None? ==> calls == old(calls)
      ensures posts.Some? ==>
        calls == old(calls) + Sent(ReplacePlaceholder(ProfilePosts, parse(PostObjects(posts.value))))
    {
      match posts
      case None =>
      case Some(ps) =>
        calls := calls + Sent(ReplacePlaceholder(ProfilePosts, parse(PostObjects(ps))));
    }

    method SetPlaceHolders()
      modifies this`calls
      ensures calls == old(calls) + Sent(SetPlaceholders(Placeholders()))
    {
      calls := calls + Sent(SetPlaceholders(Placeholders()));
    }

    /** Run the done operation of load g and show the posts that were
        waiting on it, then enable paging. */
    method RunDoneOperation(g: nat)
      requires g < |gens|
      modifies this`gens, this`calls
      ensures gens == RunDone(old(gens), g).0
      ensures calls == old(calls) + PostsShown(RunDone(old(gens), g).1)
    {
      var (gs, shown) := RunDone(gens, g);
      gens := gs;
      calls := calls + PostsShown(shown);
    }

    /** What showing the posts sends: the posts section, then paging on. */
    function PostsShown(shown: Option<seq<CellItem>>): (log: seq<DestinationCall>)
      reads this
      ensures shown.None? || !destinationAttached ==> log == []
      ensures shown.Some? && destinationAttached ==>
        log == [ReplacePlaceholder(CategoryPosts, shown.value), SetPagingEnabled(true)]
    {
      match shown
      case None => []
      case Some(items) => Sent(ReplacePlaceholder(CategoryPosts, items)) + Sent(SetPagingEnabled(true))
    }

    /** setInitialCategory: a category known up front is shown at once and
        the load's done operation runs. */
    method SetInitialCategory(g: nat)
      requires g < |gens| && gens[g] == Generation(Pending, None)
      modifies this`gens, this`calls
      ensures category.None? ==> gens == old(gens) && calls == old(calls)
      ensures category.Some? ==>
        && gens == old(gens)[g := Generation(Finished, None)]
        && calls == old(calls) + Sent(SetPrimaryJSONAble(CategoryObject(category.value)))
                               + Sent(ReplacePlaceholder(CategoryHeader, HeaderItems(category)))
    {
      match category
      case None =>
      case Some(c) =>
        calls := calls + Sent(SetPrimaryJSONAble(CategoryObject(c)));
        calls := calls + Sent(ReplacePlaceholder(CategoryHeader, HeaderItems(category)));
        RunDoneOperation(g);
    }

    /** loadCategory: fetch the category, when there is one. */
    method LoadCategory(g: nat)
      modifies this`requests
      ensures category.None? ==> requests == old(requests)
      ensures category.Some? ==> requests == old(requests) + [CategoryRequest(category.value.slug, g, localToken)]
    {
      match category
      case None =>
      case Some(c) =>
        requests := requests + [CategoryRequest(c.slug, g, localToken)];
    }

    /** loadCategoryPosts: queue the display operation behind the done
        operation, show the loading indicator and fetch the posts. */
    method LoadCategoryPosts(g: nat)
      requires g < |gens| && gens[g].display == None
      modifies this`gens, this`calls, this`requests
      ensures category.None? ==> gens == old(gens) && calls == old(calls) && requests == old(requests)
      ensures category.Some? ==>
        && gens == old(gens)[g := old(gens)[g].(display := Some(Pending))]
        && calls == old(calls) + Sent(ReplacePlaceholder(ProfilePosts, LoadingItems()))
        && requests == old(requests) + [StreamRequest(category.value.endpoint, streamKind, g, localToken)]
    {
      match category
      case None =>
      case Some(c) =>
        gens := gens[g := gens[g].(display := Some(Pending))];
        calls := calls + Sent(ReplacePlaceholder(ProfilePosts, LoadingItems()));
        requests := requests + [StreamRequest(c.endpoint, streamKind, g, localToken)];
    }

    /** In this generator the dependency of a display operation never
        delays it: its done operation has always finished first, so running
        done releases no posts, and a display still pending shows its posts
        as soon as it runs. */
    lemma DisplayNeverWaits(g: nat, items: seq<CellItem>)
      requires Valid() && g < |gens|
      ensures RunDone(gens, g).1 == None
      ensures gens[g].display == Some(Pending) ==> RunDisplay(gens, g, items).1 == Some(items)
    {
    }

    /** `localToken` is always the latest token, since every reset stores
        it there; so the guard as written passes for a response to a load
        that a later load has superseded, which the intended guard refuses. */
    lemma AsWrittenGuardAdmitsStale(r: nat)
      requires Valid() && r < |requests| && requests[r].token < localToken
      ensures AsWrittenGuard(loadingToken, localToken)
      ensures !FreshResponse(loadingToken, requests[r])
    {
    }

    /** What an accepted category response does: store and show the category
        and run the done operation of load g. */
    method ApplyCategory(g: nat, loaded: Category)
      requires g < |gens|
      modifies this`category, this`gens, this`calls
      ensures category == Some(loaded)
      ensures gens == RunDone(old(gens), g).0
      ensures calls == old(calls) + Sent(SetPrimaryJSONAble(CategoryObject(loaded)))
                                  + Sent(ReplacePlaceholder(CategoryHeader, parse([CategoryObject(loaded)])))
                                  + PostsShown(RunDone(old(gens), g).1)
    {
      category := Some(loaded);
      calls := calls + Sent(SetPrimaryJSONAble(CategoryObject(loaded)));
      calls := calls + Sent(ReplacePlaceholder(CategoryHeader, parse([CategoryObject(loaded)])));
      RunDoneOperation(g);
    }

    /** What an accepted posts response does: run the display operation of
        load g with the parsed posts. */
    method ApplyPosts(g: nat, jsonables: seq<Jsonable>)
      requires g < |gens|
      modifies this`gens, this`calls
      ensures gens == RunDisplay(old(gens), g, parse(jsonables)).0
      ensures calls == old(calls) + PostsShown(RunDisplay(old(gens), g, parse(jsonables)).1)
    {
      var (gs, shown) := RunDisplay(gens, g, parse(jsonables));
      gens := gs;
      calls := calls + PostsShown(shown);
    }

    /** The category fetch succeeded, with the guard as written: the check
        of `localToken` always passes, so every response is applied, a stale
        one included. */
    method CategoryLoadedAsWritten(r: nat, loaded: Category)
      requires Valid() && r < |requests| && requests[r].CategoryRequest?
      modifies this`category, this`gens, this`calls
      ensures Valid()
      ensures category == Some(loaded)
      ensures gens == RunDone(old(gens), requests[r].gen).0
      ensures calls == old(calls) + Sent(SetPrimaryJSONAble(CategoryObject(loaded)))
                                  + Sent(ReplacePlaceholder(CategoryHeader, parse([CategoryObject(loaded)])))
                                  + PostsShown(RunDone(old(gens), requests[r].gen).1)
    {
      if AsWrittenGuard(loadingToken, localToken) {
        ApplyCategory(requests[r].gen, loaded);
      }
    }

    /** The posts fetch succeeded, with the guard as written: every response
        runs the display operation of the load that issued it. */
    method PostsLoadedAsWritten(r: nat, jsonables: seq<Jsonable>)
      requires Valid() && r < |requests| && requests[r].StreamRequest?
      modifies this`gens, this`calls
      ensures Valid()
      ensures gens == RunDisplay(old(gens), requests[r].gen, parse(jsonables)).0
      ensures calls == old(calls) + PostsShown(RunDisplay(old(gens), requests[r].gen, parse(jsonables)).1)
    {
      if AsWrittenGuard(loadingToken, localToken) {
        ApplyPosts(requests[r].gen, jsonables);
      }
    }

    /** The category fetch succeeded, with the intended guard: a response to
        a superseded load changes nothing; otherwise it is applied. */
    method CategoryLoaded(r: nat, loaded: Category)
      requires Valid() && r < |requests| && requests[r].CategoryRequest?
      modifies this`category, this`gens, this`calls
      ensures Valid()
      ensures !FreshResponse(loadingToken, requests[r]) ==>
        category == old(category) && gens == old(gens) && calls == old(calls)
      ensures FreshResponse(loadingToken, requests[r]) ==>
        && category == Some(loaded)
        && gens == RunDone(old(gens), requests[r].gen).0
        && calls == old(calls) + Sent(SetPrimaryJSONAble(CategoryObject(loaded)))
                               + Sent(ReplacePlaceholder(CategoryHeader, parse([CategoryObject(loaded)])))
                               + PostsShown(RunDone(old(gens), requests[r].gen).1)
    {
      if FreshResponse(loadingToken, requests[r]) {
        ApplyCategory(requests[r].gen, loaded);
      }
    }

    /** The posts fetch succeeded, with the intended guard: a response to a
        superseded load changes nothing; otherwise the display operation runs
        with the parsed posts. */
    method PostsLoaded(r: nat, jsonables: seq<Jsonable>)
      requires Valid() && r < |requests| && requests[r].StreamRequest?
      modifies this`gens, this`calls
      ensures Valid()
      ensures !FreshResponse(loadingToken, requests[r]) ==> gens == old(gens) && calls == old(calls)
      ensures FreshResponse(loadingToken, requests[r]) ==>
        && gens == RunDisplay(old(gens), requests[r].gen, parse(jsonables)).0
        && calls == old(calls) + PostsShown(RunDisplay(old(gens), requests[r].gen, parse(jsonables)).1)
    {
      if FreshResponse(loadingToken, requests[r]) {
        ApplyPosts(requests[r].gen, jsonables);
      }
    }

    /** A failed category fetch, a failed posts fetch or a posts fetch with
        no content, stale or not: report the category as not found and cancel
        every queued operation. */
    method LoadFailed(r: nat)
      requires Valid() && r < |requests|
      modifies this`gens, this`calls
      ensures Valid()
      ensures gens == CancelAll(old(gens)) && AllTerminal(gens)
      ensures calls == old(calls) + Sent(PrimaryJSONAbleNotFound)
    {
      CancelAllStopsEverything(gens);
      calls := calls + Sent(PrimaryJSONAbleNotFound);
      gens := CancelAll(gens);
    }
  }

  /** The posts wrapped as JSON objects for the parser. */
  function PostObjects(posts: seq<Post>): (objs: seq<Jsonable>)
    ensures |objs| == |posts|
    ensures forall i | 0 <= i < |posts| :: objs[i] == PostObject(posts[i])
  {
    if |posts| == 0 then [] else [PostObject(posts[0])] + PostObjects(posts[1..])
  }
}
