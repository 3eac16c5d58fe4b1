# Ello stream pipeline: text measuring, category loading and profile header sizing

This project models, in Dafny, five parts of the Ello iOS app's stream content pipeline:

- **StreamTextCellSizeCalculator** measures the height of every rich-text item of a stream.
  - It uses one shared hidden web view. Batches of items ("cell jobs") wait in a first-in first-out queue.
  - Only the head batch is worked on. Its pending items are rendered one at a time, and items without a text region are skipped.
  - Each finished load resolves the head pending item, writing one height into its three height fields.
  - When the pending list is empty, the head batch's completion is called, the batch leaves the queue, and the next batch starts.
  - The model is a class over the queue and the pending list (`stream_text_cell_size_calculator.dfy`).
  - Its invariant is stated on a value snapshot of the fields. Every submitted text item is requested exactly once, in submission order. When the calculator is idle, the render log is exactly the text items of all submitted batches.
  - The recursion of `loadNext` is a loop, proved against the relation `LoadNextEffect`.
- **CategoryGenerator** loads a category page in two stages: the category (the header), then its posts.
  - It guards success responses with a loading token that every `load` renews.
  - The posts are displayed through an operation that depends on a "done" operation. Any failure cancels every queued operation.
  - The dependency never delays the display in this generator. Both operations exist only when there is a category, and `setInitialCategory` finishes done before `loadCategoryPosts` queues the display, so a posts response shows its posts at once (`DisplayNeverWaits`). The armed case of `RunDone` and `PostsShownOnceAfterDone` describe the operation semantics in general, not an order this generator reaches.
  - The queue is modelled as pure functions over one entry per load (`category_generator.dfy`). The generator is a class whose network requests and destination calls are logs.
- **LoadingToken** issues one token per page load and recognises only the latest (`loading_token.dfy`).
- **CGRect helpers** are pure functions over exact reals (`geometry.dfy`).
- **ProfileBioSizeCalculator** measures one bio: zero at once, or pending until the web view finishes or fails (`profile_bio_size_calculator.dfy`).
- **ProfileHeaderCompactView** has initial heights set in `arrange` and a `calculatedCellHeights` update that moves three height constraints and two gray-line flags (`profile_header_compact_view.dfy`).

Shared entities (categories, posts, users, the JSON-backed objects, `Option`) are in `models.dfy`.

Modelling conventions:
- Web views and network services are external event sources. Loads and fetches are appended to output logs, and their callbacks are input methods.
- A completion closure is identified by a number, and its calls are logged.

## Model

| member | source | states |
|---|---|---|
| StreamCalculators.EffectiveWidth | Sources/Controllers/Stream/Calculators/StreamTextCellSizeCalculator.swift:45-47 | One column measures at the full width of the batch. |
| StreamCalculators.EffectiveWidthBounds | Sources/Controllers/Stream/Calculators/StreamTextCellSizeCalculator.swift:48-50 | With several columns the width is a whole number: the largest one not above a column's share of the width less the spacing between columns. |
| StreamCalculators.StreamCellItem.AssignHeights | Sources/Controllers/Stream/Calculators/StreamTextCellSizeCalculator.swift:91-93 | One measured height is recorded in all three of the item's height fields. |
| StreamCalculators.RenderWidth | Sources/Controllers/Stream/Calculators/StreamTextCellSizeCalculator.swift:56-63 | Comments render 45 points narrower than maxWidth (comment margin 60 less post margin 15). Other items render at maxWidth. |
| StreamCalculators.TextItemsAppend | Sources/Controllers/Stream/Calculators/StreamTextCellSizeCalculator.swift:64-76 | The items of a list that get a render request are those of each part, in order. |
| StreamCalculators.TextItems | Sources/Controllers/Stream/Calculators/StreamTextCellSizeCalculator.swift:64-76 | The render list is never longer than the item list. |
| StreamCalculators.TextItemsFilter | Sources/Controllers/Stream/Calculators/StreamTextCellSizeCalculator.swift:64-76 | An item gets a render request exactly when it is in the list and has a TextRegion. |
| StreamCalculators.AllTextTracksSubmitted | Sources/Controllers/Stream/Calculators/StreamTextCellSizeCalculator.swift:24-26 | Queuing a batch appends its text items to those of the batches already submitted. |
| StreamCalculators.AppendedPending | Sources/Controllers/Stream/Calculators/StreamTextCellSizeCalculator.swift:26 | A batch queued behind a running one adds its text items after everything still owed. |
| StreamCalculators.AppendJobKeepsCore | Sources/Controllers/Stream/Calculators/StreamTextCellSizeCalculator.swift:26 | Appending at the tail keeps the head batch, and so the installed closure and the pending list that belong to it. |
| StreamCalculators.AppendJobKeepsValid | Sources/Controllers/Stream/Calculators/StreamTextCellSizeCalculator.swift:24-30 | Queuing behind a running batch keeps the invariant: still waiting on the same render, with the new batch owed after the rest. |
| StreamCalculators.StartJobIsUnsettled | Sources/Controllers/Stream/Calculators/StreamTextCellSizeCalculator.swift:34-50 | Starting a batch on an idle calculator makes its text items exactly what is owed, with its closure and width installed. |
| StreamCalculators.SkipKeepsUnsettled | Sources/Controllers/Stream/Calculators/StreamTextCellSizeCalculator.swift:73-76 | Dropping an item without a text region changes nothing that is owed. |
| StreamCalculators.RenderSettles | Sources/Controllers/Stream/Calculators/StreamTextCellSizeCalculator.swift:54-72 | Requesting the head text item at its width leaves the calculator waiting on exactly that render. |
| StreamCalculators.AssignKeepsCore | Sources/Controllers/Stream/Calculators/StreamTextCellSizeCalculator.swift:89-90 | Removing the head pending item keeps the pending list a suffix of the head batch's items. |
| StreamCalculators.OwedAfterResolve | Sources/Controllers/Stream/Calculators/StreamTextCellSizeCalculator.swift:88-94 | When the head pending item has text, moving it to the rendered items keeps rendered followed by owed equal to all submitted text. |
| StreamCalculators.AssignKeepsUnsettled | Sources/Controllers/Stream/Calculators/StreamTextCellSizeCalculator.swift:88-94 | Resolving the head item moves it from owed to rendered. |
| StreamCalculators.DequeueKeepsUnsettled | Sources/Controllers/Stream/Calculators/StreamTextCellSizeCalculator.swift:35-43 | With the pending list empty, the completion dequeues the head batch, logs its completion and starts the next batch, keeping the invariant. |
| StreamCalculators.CompletedKeepsUnsettled | Sources/Controllers/Stream/Calculators/StreamTextCellSizeCalculator.swift:77-80 | Running the installed closure once the pending list is empty keeps the invariant, whether or not a batch is queued. |
| StreamCalculators.Completed | Sources/Controllers/Stream/Calculators/StreamTextCellSizeCalculator.swift:35-43 | The closure processJob installs: with a batch queued it dequeues it; with none it calls the completion of its own batch again; the closure from construction does nothing. |
| StreamCalculators.Dequeued | Sources/Controllers/Stream/Calculators/StreamTextCellSizeCalculator.swift:36-42 | The head batch moves to the finished batches, its completion is logged, and the next batch, if any, is started. |
| StreamCalculators.LoadNextEffect | Sources/Controllers/Stream/Calculators/StreamTextCellSizeCalculator.swift:54-81 | One loadNext call: a prefix of the queue is finished with its completions logged in queue order, then either nothing more is rendered (idle) or exactly one render is added, of the head batch's first text item when it had one. |
| StreamCalculators.IdleRendersAllSubmitted | Sources/Controllers/Stream/Calculators/StreamTextCellSizeCalculator.swift:78-80 | Once idle, the render log is exactly the text items of every batch ever submitted, in submission order. |
| StreamCalculators.IdleClosureRepeatsLastCompletion | Sources/Controllers/Stream/Calculators/StreamTextCellSizeCalculator.swift:35-43 | Once the queue is empty, the last batch's closure stays installed: running it again calls that batch's completion once more and changes nothing else. |
| StreamCalculators.ProgressStarts | Sources/Controllers/Stream/Calculators/StreamTextCellSizeCalculator.swift:54 | loadNext starts having finished no batch and rendered nothing. |
| StreamCalculators.SkipProgresses | Sources/Controllers/Stream/Calculators/StreamTextCellSizeCalculator.swift:73-76 | A skipped item leaves the head batch's text items and the finished batches as they were. |
| StreamCalculators.RenderEnds | Sources/Controllers/Stream/Calculators/StreamTextCellSizeCalculator.swift:66-72 | loadNext ends with exactly one new render, of the head item, and when the head batch was not finished it is that batch's first text item. |
| StreamCalculators.IdleEnds | Sources/Controllers/Stream/Calculators/StreamTextCellSizeCalculator.swift:78-80 | With nothing queued, loadNext calls the installed closure once and renders nothing. |
| StreamCalculators.DequeueProgresses | Sources/Controllers/Stream/Calculators/StreamTextCellSizeCalculator.swift:35-43 | Each finished batch is the next one in queue order, and its completion follows the previous ones in the log. |
| StreamCalculators.FinishKeepsProgress | Sources/Controllers/Stream/Calculators/StreamTextCellSizeCalculator.swift:77-80 | With nothing pending, the closure keeps the invariant and either ends loadNext idle with its whole effect done, or starts the next batch with one batch fewer queued. |
| StreamCalculators.FirstRenderIsFirstTextItem | Sources/Controllers/Stream/Calculators/StreamTextCellSizeCalculator.swift:54-72 | When the head batch still has text, loadNext appends exactly one render: its first text item at that item's width. |
| StreamCalculators.StreamTextCellSizeCalculator.constructor | Sources/Controllers/Stream/Calculators/StreamTextCellSizeCalculator.swift:15-20 | Empty queue and list, maxWidth 0, the empty closure, and nothing rendered or completed. |
| StreamCalculators.StreamTextCellSizeCalculator.ProcessCells | Sources/Controllers/Stream/Calculators/StreamTextCellSizeCalculator.swift:24-30 | With a batch running, the new batch is only appended at the tail. On an idle calculator it is appended and started, with loadNext's effect. The invariant is kept. |
| StreamCalculators.StreamTextCellSizeCalculator.Enqueue | Sources/Controllers/Stream/Calculators/StreamTextCellSizeCalculator.swift:25-26 | The batch joins the tail of the queue, and its text items join the log of submitted text. |
| StreamCalculators.StreamTextCellSizeCalculator.ProcessJob | Sources/Controllers/Stream/Calculators/StreamTextCellSizeCalculator.swift:34-50 | The batch's closure, items and effective width are installed. |
| StreamCalculators.StreamTextCellSizeCalculator.RunCompletion | Sources/Controllers/Stream/Calculators/StreamTextCellSizeCalculator.swift:35-43 | The new state is the closure's effect `Completed`: dequeue if non-empty, log the completion, start the next batch. |
| StreamCalculators.StreamTextCellSizeCalculator.LoadNext | Sources/Controllers/Stream/Calculators/StreamTextCellSizeCalculator.swift:54-81 | Ends settled, having skipped non-text items and finished a prefix of the queue with completions logged in queue order. It then either stops idle or issues exactly one render. |
| StreamCalculators.StreamTextCellSizeCalculator.RenderHead | Sources/Controllers/Stream/Calculators/StreamTextCellSizeCalculator.swift:55-72 | The web view is sized for the head text item and that item's load is requested. |
| StreamCalculators.StreamTextCellSizeCalculator.SkipHead | Sources/Controllers/Stream/Calculators/StreamTextCellSizeCalculator.swift:73-76 | An item without a text region leaves the pending list with no render. |
| StreamCalculators.StreamTextCellSizeCalculator.FinishHead | Sources/Controllers/Stream/Calculators/StreamTextCellSizeCalculator.swift:77-80 | With nothing pending, the closure runs. Work remains only when it started a queued batch. |
| StreamCalculators.StreamTextCellSizeCalculator.AssignCellHeight | Sources/Controllers/Stream/Calculators/StreamTextCellSizeCalculator.swift:88-94 | Only the head pending item leaves the list, and its webContent, oneColumn and multiColumn heights all become the measured height. |
| StreamCalculators.StreamTextCellSizeCalculator.WebViewDidFinishLoad | Sources/Controllers/Stream/Calculators/StreamTextCellSizeCalculator.swift:83-96 | The head item gets the content height, or 0 when there is none, and then loadNext's effect follows. The invariant is kept. On an idle calculator whose last batch is done, the event calls that batch's completion once more. |
| LoadingTokens.ResetInitialPageLoadingToken | Sources/Controllers/Categories/CategoryGenerator.swift:51 | The new token is the recorded one and is later than every token before it. |
| LoadingTokens.IsValidInitialPageLoadingToken | Sources/Controllers/Categories/CategoryGenerator.swift:93 | A token is valid exactly when it is the latest one issued. |
| LoadingTokens.ResetInvalidatesEarlier | Sources/Controllers/Categories/CategoryGenerator.swift:51 | After a reset the new token is valid and no earlier token is. |
| Categories.HeaderItems | Sources/Controllers/Categories/CategoryGenerator.swift:19-33 | Empty exactly when there is no category. Otherwise exactly one CategoryHeader item wrapping the category. |
| Categories.Placeholders | Sources/Controllers/Categories/CategoryGenerator.swift:67-75 | Two placeholder items, CategoryHeader then CategoryPosts. |
| Categories.Cancel | Sources/Controllers/Categories/CategoryGenerator.swift:103 | A cancelled operation is stopped, and a finished one stays finished. |
| Categories.CancelAll | Sources/Controllers/Categories/CategoryGenerator.swift:103 | Every operation of every load is cancelled in place: each entry of the queue is the cancelled entry, and the queue keeps its length. |
| Categories.CancelAllStopsEverything | Sources/Controllers/Categories/CategoryGenerator.swift:100-104 | After cancelAllOperations no operation of any load can still run, and finished ones are unchanged. |
| Categories.CancelAllIdempotent | Sources/Controllers/Categories/CategoryGenerator.swift:131-138 | Cancelling again changes nothing. |
| Categories.RunDone | Sources/Controllers/Categories/CategoryGenerator.swift:109-111 | The done operation finishes if pending. The display operation depending on it runs then, and only then, if it was armed. Other loads and stopped operations are unchanged. |
| Categories.RunDisplay | Sources/Controllers/Categories/CategoryGenerator.swift:123-129 | The display shows the posts now only if its dependency has finished. It waits armed while the dependency is pending, and does nothing once cancelled or run. |
| Categories.PostsShownOnceAfterDone | Sources/Controllers/Categories/CategoryGenerator.swift:109-129 | Whichever of the done and display operations runs second shows the posts, exactly once. |
| Categories.CancelledNeverShown | Sources/Controllers/Categories/CategoryGenerator.swift:123-138 | A cancelled display operation never shows posts and stays cancelled. |
| Categories.AsWrittenGuard | Sources/Controllers/Categories/CategoryGenerator.swift:93 | The guard as written: `localToken`, read when the response arrives, is the latest token. |
| Categories.FreshResponse | Sources/Controllers/Categories/CategoryGenerator.swift:120 | The intended guard: the token the request was issued under is still the latest. |
| Categories.CategoryGenerator.AsWrittenGuardAdmitsStale | Sources/Controllers/Categories/CategoryGenerator.swift:93 | In every reachable state of the generator, a response to a superseded load passes the guard as written and fails the intended one, because `localToken` is always the latest token. |
| Categories.StaleCategoryResponseExample | Sources/Controllers/Categories/CategoryGenerator.swift:91-93 | After two loads, the first load's response passes the guard as written but fails the intended one. |
| Categories.FreshResponseRejectsSuperseded | Sources/Controllers/Categories/CategoryGenerator.swift:120 | Under the intended guard, a response to any load before the latest reset is refused. |
| Categories.PostObjects | Sources/Controllers/Categories/CategoryGenerator.swift:60 | The posts wrapped one for one, in order, as JSON objects. |
| Categories.CategoryGenerator.PostsShown | Sources/Controllers/Categories/CategoryGenerator.swift:125-127 | Showing posts replaces CategoryPosts, then enables paging. Nothing is sent when nothing is shown or the destination is gone. |
| Categories.CategoryGenerator.constructor | Sources/Controllers/Categories/CategoryGenerator.swift:35-45 | Stores the category and takes a first, valid token. No operation, request or call yet. |
| Categories.CategoryGenerator.Load | Sources/Controllers/Categories/CategoryGenerator.swift:47-56 | Takes a fresh token, after which the requests that pass the intended guard are exactly those this load issued. Shows the two placeholders. Without a category nothing else happens. With one, it shows it, runs done, fetches the category and posts, and shows the loading indicator in ProfilePosts. |
| Categories.CategoryGenerator.ToggleGrid | Sources/Controllers/Categories/CategoryGenerator.swift:58-61 | Does nothing while posts is nil, which the invariant keeps true. Otherwise it re-shows the parsed posts in ProfilePosts. |
| Categories.CategoryGenerator.SetPlaceHolders | Sources/Controllers/Categories/CategoryGenerator.swift:67-75 | Sends the two placeholders. |
| Categories.CategoryGenerator.RunDoneOperation | Sources/Controllers/Categories/CategoryGenerator.swift:82 | Runs the done operation and shows the posts it releases. |
| Categories.CategoryGenerator.SetInitialCategory | Sources/Controllers/Categories/CategoryGenerator.swift:77-83 | Without a category, nothing. With one, it sets the primary object, shows the header items and finishes the done operation. |
| Categories.CategoryGenerator.LoadCategory | Sources/Controllers/Categories/CategoryGenerator.swift:85-90 | Fetches the category by slug, tagged with its load and token, when there is one. |
| Categories.CategoryGenerator.LoadCategoryPosts | Sources/Controllers/Categories/CategoryGenerator.swift:107-117 | When there is a category, it queues a pending display operation, shows one loading item in ProfilePosts and fetches the posts stream. |
| Categories.CategoryGenerator.ApplyCategory | Sources/Controllers/Categories/CategoryGenerator.swift:94-98 | Stores the category, sets the primary object, shows the parsed category in CategoryHeader, then runs the load's done operation and shows any posts it releases. |
| Categories.CategoryGenerator.ApplyPosts | Sources/Controllers/Categories/CategoryGenerator.swift:122-129 | Runs the load's display operation with the parsed posts, showing them only if its done operation has finished. |
| Categories.CategoryGenerator.DisplayNeverWaits | Sources/Controllers/Categories/CategoryGenerator.swift:77-111 | In every reachable state, running a load's done operation releases no posts, and a pending display operation shows its posts as soon as it runs, because done finished before the display was queued. |
| Categories.CategoryGenerator.CategoryLoadedAsWritten | Sources/Controllers/Categories/CategoryGenerator.swift:91-99 | As written: every category response is applied, one to a superseded load included: it overwrites the category and the header shown for the current load. |
| Categories.CategoryGenerator.PostsLoadedAsWritten | Sources/Controllers/Categories/CategoryGenerator.swift:118-130 | As written: every posts response runs the display operation of the load that issued it, a superseded load included. |
| Categories.CategoryGenerator.CategoryLoaded | Sources/Controllers/Categories/CategoryGenerator.swift:91-99 | With the intended guard in place of line 93: a response to a superseded load changes nothing, and a fresh one is applied as `ApplyCategory`. |
| Categories.CategoryGenerator.PostsLoaded | Sources/Controllers/Categories/CategoryGenerator.swift:118-130 | With the intended guard in place of line 120: a response to a superseded load changes nothing, and a fresh one is applied as `ApplyPosts`. |
| Categories.CategoryGenerator.LoadFailed | Sources/Controllers/Categories/CategoryGenerator.swift:100-104 | Any failure, stale or not, reports not-found and cancels every operation of every load. The posts failure and no-content handlers (lines 131-138) do the same. |
| Geometry.MinX | Sources/Extensions/CGRect.swift:18 | The smaller x edge of the rect, whatever the sign of its width. |
| Geometry.MidX | Sources/Extensions/CGRect.swift:19 | Halfway between the two x edges. |
| Geometry.MaxX | Sources/Extensions/CGRect.swift:20 | The larger x edge, equal to minX plus width. |
| Geometry.MinY | Sources/Extensions/CGRect.swift:22 | The smaller y edge of the rect. |
| Geometry.MidY | Sources/Extensions/CGRect.swift:23 | Halfway between the two y edges. |
| Geometry.MaxY | Sources/Extensions/CGRect.swift:24 | The larger y edge, equal to minY plus height. |
| Geometry.Width | Sources/Extensions/CGRect.swift:26 | The absolute width. |
| Geometry.Height | Sources/Extensions/CGRect.swift:27 | The absolute height. |
| Geometry.NonNegativeDimensions | Sources/Extensions/CGRect.swift:18-27 | For non-negative sizes the edges are the origin and the origin plus the size, and mid is origin plus half the size. |
| Geometry.AtOrigin | Sources/Extensions/CGRect.swift:30-34 | Only the origin changes. |
| Geometry.WithSize | Sources/Extensions/CGRect.swift:36-40 | Only the size changes. |
| Geometry.AtX | Sources/Extensions/CGRect.swift:42-46 | Only x changes. |
| Geometry.AtY | Sources/Extensions/CGRect.swift:48-52 | Only y changes. |
| Geometry.WithWidth | Sources/Extensions/CGRect.swift:54-58 | Only the width changes. |
| Geometry.WithHeight | Sources/Extensions/CGRect.swift:60-64 | Only the height changes. |
| Geometry.InsetRect | Sources/Extensions/CGRect.swift:68 | Each edge moves inwards by its inset: the origin by (left, top), the far edges back by right and bottom. |
| Geometry.InsetAll | Sources/Extensions/CGRect.swift:67-69 | The origin moves by (a, a), and the width and height shrink by 2a. |
| Geometry.InsetTopBottomSides | Sources/Extensions/CGRect.swift:71-73 | Insets both sides by `sides` and top and bottom by `topBottom`. |
| Geometry.InsetTopSidesBottom | Sources/Extensions/CGRect.swift:75-77 | Insets the top, both sides and the bottom by their amounts. |
| Geometry.InsetEdges | Sources/Extensions/CGRect.swift:79-81 | The general inset, with the size shrinking by left plus right and top plus bottom. |
| Geometry.ShrinkLeft | Sources/Extensions/CGRect.swift:84-86 | x rises by the amount and the width falls by it. The right edge stays. |
| Geometry.ShrinkRight | Sources/Extensions/CGRect.swift:88-90 | The width falls by the amount. The origin stays. |
| Geometry.ShrinkDown | Sources/Extensions/CGRect.swift:92-94 | y rises by the amount and the height falls by it. |
| Geometry.ShrinkUp | Sources/Extensions/CGRect.swift:96-98 | The height falls by the amount. The origin stays. |
| Geometry.GrowLeft | Sources/Extensions/CGRect.swift:101-103 | Equals shrinkLeft by the negated amount. |
| Geometry.GrowRight | Sources/Extensions/CGRect.swift:105-107 | Equals shrinkRight by the negated amount. |
| Geometry.GrowDown | Sources/Extensions/CGRect.swift:109-111 | Equals shrinkDown by the negated amount. |
| Geometry.GrowUp | Sources/Extensions/CGRect.swift:113-115 | Equals shrinkUp by the negated amount. |
| Geometry.GrowThenShrink | Sources/Extensions/CGRect.swift:84-115 | Growing an edge and shrinking it by the same amount gives back the rect. |
| Geometry.FromTop | Sources/Extensions/CGRect.swift:118-120 | Zero height at minY, keeping minX and width. |
| Geometry.FromBottom | Sources/Extensions/CGRect.swift:122-124 | Zero height at maxY, keeping minX and width. |
| Geometry.FromLeft | Sources/Extensions/CGRect.swift:126-128 | Zero width at minX, keeping minY and height. |
| Geometry.FromRight | Sources/Extensions/CGRect.swift:130-132 | Zero width at maxX, keeping minY and height. |
| Geometry.SlicesBoundTheRect | Sources/Extensions/CGRect.swift:118-132 | The top and bottom slices lie one height apart, the left and right slices one width apart, and the slices span the rect. |
| Geometry.ShiftUp | Sources/Extensions/CGRect.swift:135-137 | y falls by the amount. The size is unchanged. |
| Geometry.ShiftDown | Sources/Extensions/CGRect.swift:139-141 | y rises by the amount. The size is unchanged. |
| Geometry.ShiftLeft | Sources/Extensions/CGRect.swift:143-145 | x falls by the amount. The size is unchanged. |
| Geometry.ShiftRight | Sources/Extensions/CGRect.swift:147-149 | x rises by the amount. The size is unchanged. |
| Geometry.ShiftRoundTrips | Sources/Extensions/CGRect.swift:135-149 | A shift followed by the opposite shift of the same amount is the identity. |
| ProfileCalculators.BioOf | Sources/Controllers/Profile/Calculators/ProfileBioSizeCalculator.swift:17-20 | There is a bio to render exactly when the item is a user with a formattedShortBio. |
| ProfileCalculators.MeasuredHeight | Sources/Controllers/Profile/Calculators/ProfileBioSizeCalculator.swift:36-37 | The result less both margins is the content height, or 0 when there is none. |
| ProfileCalculators.MeasuredHeightBounds | Sources/Controllers/Profile/Calculators/ProfileBioSizeCalculator.swift:36-37 | With non-negative margins the result is at least the content height, and exactly the margins without content. |
| ProfileCalculators.ProfileBioSizeCalculator.constructor | Sources/Controllers/Profile/Calculators/ProfileBioSizeCalculator.swift:8-10 | A pending promise, with no load and no delegate. |
| ProfileCalculators.ProfileBioSizeCalculator.Complete | Sources/Controllers/Profile/Calculators/ProfileBioSizeCalculator.swift:10 | The promise keeps the first result it is given. |
| ProfileCalculators.ProfileBioSizeCalculator.Calculate | Sources/Controllers/Profile/Calculators/ProfileBioSizeCalculator.swift:16-29 | Without a bio the result is 0 at once and nothing is loaded. With one, the web view is set to maxWidth and becomes the delegate, the bio is loaded once, and the result stays pending. |
| ProfileCalculators.ProfileBioSizeCalculator.WebViewDidFinishLoad | Sources/Controllers/Profile/Calculators/ProfileBioSizeCalculator.swift:35-38 | A pending result becomes the content height (0 if absent) plus top and bottom margins. |
| ProfileCalculators.ProfileBioSizeCalculator.WebViewDidFailLoad | Sources/Controllers/Profile/Calculators/ProfileBioSizeCalculator.swift:40-42 | A pending result becomes 0. |
| ProfileViews.GrayLinesFollowContent | Sources/Controllers/Profile/ProfileHeaderCompactView.swift:24-28 | The stats line shows exactly when the bio or links height is present and positive. The bio line shows exactly when the links height is. |
| ProfileViews.OptionalGreaterThanZero | Sources/Controllers/Profile/ProfileHeaderCompactView.swift:24-28 | A missing height is never greater than zero. |
| ProfileViews.StatsGrayLineVisible | Sources/Controllers/Profile/ProfileHeaderCompactView.swift:24-28 | The stats gray line shows when the bio or the links height is positive. |
| ProfileViews.BioGrayLineVisible | Sources/Controllers/Profile/ProfileHeaderCompactView.swift:24-28 | The bio gray line shows when the links height is positive. |
| ProfileViews.Updated | Sources/Controllers/Profile/ProfileHeaderCompactView.swift:20-22 | A present height replaces the constraint offset. An absent one leaves it. |
| ProfileViews.ProfileHeaderCompactView.constructor | Sources/Controllers/Profile/ProfileHeaderCompactView.swift:49-93 | Names, bio and links heights start at 0. Avatar, total-count and stats heights are the views' fixed heights. |
| ProfileViews.ProfileHeaderCompactView.SetCalculatedCellHeights | Sources/Controllers/Profile/ProfileHeaderCompactView.swift:16-32 | nil changes no constraint, flag or layout request. Otherwise each present height updates its constraint, both gray lines follow the rule and layout is requested. |

## Left out

- Rendering itself is outside the model.
  - `StreamTextCellHTML.postHTML`, `stripHtmlImgSrc` and `loadHTMLString` are an output log of render requests: the item and its width.
  - `windowContentSize` is the optional height passed to the finish callbacks.
  - The web view frame is kept only as its width.
- Threads and `inForeground` are not modelled. Every callback runs to completion, one after another, as on the app's main thread.
- The network fetches (`CategoryService.loadCategory`, `StreamService.loadStream`) are logged requests whose answers are input methods. The response config of a posts fetch is not modelled.
- `StreamCellItemParser.parse` is a function the generator is given, so its output is arbitrary.
- `AsyncOperation` and `NSOperationQueue` are not part of this model. Their behaviour is as the generator relies on it:
  - `run()` finishes an operation.
  - `run { }` on a dependent operation runs its block once the dependency has finished.
  - Cancelling stops every operation that has not finished.
  - The queue is kept as one entry per load, never emptied.
- The source of `LoadingToken` is not part of this model. `loading_token.dfy` stands in for it: tokens are the counter that issues them, and `isValidInitialPageLoadingToken` is equality with the latest.
- `[weak self]` is not modelled: responses that arrive after the generator is gone are not covered.
- `destination` is fixed as attached or not for the generator's lifetime. Reassigning it is not modelled.
- A `replacePlaceholder` completion closure is taken to run right after the replacement.
- `currentUser` is stored by the generator and never read by the modelled code, so it is left out. `hasPosts` is declared and never assigned (its only use is commented out), so it is left out too. `load`'s `reload` argument is accepted and unused, as its only use is commented out.
- Calling `processCells` with `columnCount` 0 is excluded by a precondition. The width formula would divide by zero, which `CGFloat` turns into an infinite or NaN width.
- `CGFloat` arithmetic is exact reals here, with `floor` as `.Floor`. Rounding is not modelled.
- Some constants are not in the modelled files, so they are constructor parameters:
  - `StreamKind.Following.columnSpacing`
  - `ProfileBioView.Size.margins`
  - the heights of `ProfileAvatarView`, `ProfileTotalCountView` and `ProfileStatsView`
  - the initial gray-line flags of the stats and bio views

  `StreamTextCellPresenter.commentMargin` (60) and `postMargin` (15) are taken from the calculator's own comment at line 57.
- Completion closures are numbers in a log. A closure that calls back into the calculator or generator (re-entrancy) is not modelled.
- `CGRect.tap` (a debug print) and the `x`/`y` shorthands are not modelled.
- The `deinit` of `ProfileBioSizeCalculator` is not modelled.
- A second completion of the bio calculator's promise keeps the first result. The FutureKit promise is not part of this model.
- `style`, `bindActions`, `setText` and the SnapKit layout of `ProfileHeaderCompactView` are not modelled, beyond the heights set in `arrange`.
- A finish event that arrives while the text calculator is idle calls the last batch's completion again. The model keeps this behaviour of the code and does not forbid such an event. The invariant keeps the last batch's closure installed once the queue is empty (`IdleClosureRepeatsLastCompletion`), and `WebViewDidFinishLoad` states the repeated completion.
- Categories.CategoryGenerator.CategoryLoaded: models the intended guard (the request's own token must be the latest), not line 93 as written, which admits responses to superseded loads. The as-written handler is `CategoryLoadedAsWritten`; see Findings.
- Categories.CategoryGenerator.PostsLoaded: models the intended guard, not line 120 as written. The as-written handler is `PostsLoadedAsWritten`; see Findings.
- The class methods are stated with `old` and `modifies`. What they promise is carried by the value-level functions and lemmas beside them (`LoadNextEffect`, `Completed`, `RunDone`, `RunDisplay`, `CancelAll`).

## Findings

| source | as written | input that shows it | evidently intended | confidence | as-written member | corrected member |
|---|---|---|---|---|---|---|
| Sources/Controllers/Categories/CategoryGenerator.swift:93 | The success callbacks check `isValidInitialPageLoadingToken(sself.localToken)`, reading `localToken` when the response arrives. Every reset stores the latest token there, so the check always passes. The same guard is at line 120. | Call `load` twice, then deliver the first load's category (or posts) response. It passes the guard and overwrites the header (or posts) of the second load. | Capture the token when the request is issued and test that one, so a response to a superseded load is dropped. | not executed; the LoadingToken source is not part of this model, so isValid is taken as equality with the latest token | Categories.CategoryGenerator.AsWrittenGuardAdmitsStale | Categories.FreshResponseRejectsSuperseded |

`CategoryLoadedAsWritten` and `PostsLoadedAsWritten` apply every response, as the code does. The generator's own handlers `CategoryLoaded` and `PostsLoaded` use the intended guard (`FreshResponse`), and `Load` proves that after it only its own requests pass that guard. The failure handlers check no token in either version, so a stale failure still cancels the current load's operations.
