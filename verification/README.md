# Recipe paging, filtering and drag-scrolling — a Dafny model

This project models the logic core of an Angular recipe browser. The
`RecepiesService` loads recipes from a remote source 30 at a time. It keeps
them in one accumulated list (`standartrecepList`) and announces each page
through `recipesLoaded$`. Two views read that list:

- The list page shows a filtered projection in a horizontal carousel. It
  pages when fewer than 1500 px remain to the right. It also scrolls by
  mouse drag, and after release it keeps scrolling with decaying momentum.
- The footer shows a vertical copy of the list. It pages once 80% of its
  height has been seen.

The model is functional:

- The service is an immutable `Paging.Store`. The calls `loadMoreRecipes`
  and `initializeRecipes`, and the arrival of an HTTP answer, are events of
  a step function.
- The HTTP request is an output `Request(skip, limit)`. Its answer is an
  input event `Deliver(Ok(items, total))` or `Deliver(Err)`.
- `recipesLoaded$` is a counter of `next(true)` calls. Subscribers are
  modelled by handler functions (`OnRecordsChanged`).
- The drag and momentum handlers form a state machine over
  `{Idle, Dragging, Momentum}`. Each animation frame is an explicit step
  (`DragFrame`, `MomentumFrame`).
- Geometry, pointer positions and velocities are exact `real`s. This is an
  idealisation of JavaScript numbers. `Date.now()` is an `int` parameter.

Modules: `Recipes` (the record, `Option`, ASCII case helpers),
`Subsequences` (order-preserving `Filter` and `IsSubsequence`), `Paging`
(the service), `ScrollTriggers` (the two edge-proximity decisions),
`DragScroll` (drag and momentum), `ListPage` (the list page component) and
`Footer` (the footer component).

Behaviour of the code worth knowing:

- The total is taken from every answer while `totalRecipes` is still 0, not
  only from the first answer (`recepies.service.ts:48-50`).
- `recipesLoaded$` is a `BehaviorSubject`, so each subscription fires at once
  with the last value, and again on each later success. As a consequence the
  list page's local `isLoadingMore` guard clears two animation frames after
  the request, whether or not the page has arrived
  (`ListPage.GuardClearsBeforeAnswer`). Duplicate requests are prevented by
  the service's own `isLoading` flag alone.
- The footer also polls (`Footer.PollTick`) besides listening to the
  notification; a tick never disagrees with it
  (`Footer.PollTickAgreesWithNotification`).
- The list page's difficulty filter compares the selector with the recipe
  ignoring case, so `'hard'` shows hard recipes there. The service's
  `filterRecipesByDifficulty` maps every selector other than `'all'` and
  `'easy'` to medium. The two disagree on `'hard'` (`ListPage.HardDiverges`)
  and agree on `'all'`, `'easy'` and `'medium'`
  (`ListPage.ServiceDifficultyAgrees`).

## Model

| member | source | states |
|---|---|---|
| Paging.InitialInv | src/app/service/recipe/recepies.service.ts:11-23 | A new service has an empty list and no flag set, and satisfies the state invariant. |
| Paging.GetRecipesPage | src/app/service/recipe/recepies.service.ts:27-41 | Before completion it asks for `limit = 30`, `skip = currentPage * 30` and marks one more request in flight, changing nothing else. After completion it answers at once with an empty page and the known total. |
| Paging.LoadMore | src/app/service/recipe/recepies.service.ts:43-46 | A request is issued iff neither `isLoading` nor `_allRecipesLoaded` holds. Otherwise nothing changes. A request is for the page at the cursor and sets `isLoading`. |
| Paging.OnReply | src/app/service/recipe/recepies.service.ts:46-68 | On success the list becomes old list ++ page items (with `recepList` equal to it), the cursor moves by 1, the total is overwritten only while 0, completion is set iff `length >= total` (or was already set), `isLoading` clears and one notification is emitted. On error only `isLoading` clears. |
| Paging.Initialize | src/app/service/recipe/recepies.service.ts:71-77 | With a nonempty list nothing happens. With an empty list it rewinds the cursor, clears completion and loads once: it asks for page 0 when idle, and issues nothing when a request is already in flight. |
| Paging.StepInv | src/app/service/recipe/recepies.service.ts:43-67 | Every event keeps the invariant (`isLoading` iff one outstanding request; completion implies not loading and `length >= total`). A request is only issued when none is outstanding. |
| Paging.RunInv | src/app/service/recipe/recepies.service.ts:43-67 | Along any event sequence at most one fetch is in flight. |
| Paging.LoadMoreWhileLoading | src/app/service/recipe/recepies.service.ts:44 | While a request is outstanding, load calls change nothing and issue nothing. |
| Paging.TwoCallsOneFetch | src/app/service/recipe/recepies.service.ts:44 | Two load calls before an answer issue exactly one request (none if already loading or complete). |
| Paging.StepAppends | src/app/service/recipe/recepies.service.ts:52 | The old list is a prefix of the new one after every event. Only a successful answer to an outstanding request changes it. |
| Paging.RunAppends | src/app/service/recipe/recepies.service.ts:52 | Along any event sequence the list only grows by appending. |
| Paging.ErrorChangesOnlyLoading | src/app/service/recipe/recepies.service.ts:64-67 | A failed page leaves list, cursor, total, completion and notification count unchanged and clears only the in-flight flag. |
| Paging.StepKeepsTotal | src/app/service/recipe/recepies.service.ts:48-50 | Once the total is nonzero no event changes it. |
| Paging.StepKeepsComplete | src/app/service/recipe/recepies.service.ts:57-59 | No load call and no answer clears completion. Initialisation clears it only while the list is empty. |
| Paging.RunAfterComplete | src/app/service/recipe/recepies.service.ts:43-59 | Once complete with data, every later event sequence issues no request and keeps list, cursor and completion. |
| Paging.InitializeIdempotent | src/app/service/recipe/recepies.service.ts:71-77 | `initializeRecipes` twice in a row issues at most one request. With data already loaded it is a no-op. |
| Paging.NextRequestAfterSuccess | src/app/service/recipe/recepies.service.ts:36-54 | A request–success cycle appends the page and advances the cursor, so the next request skips `(page + 1) * 30`. |
| Paging.ScenarioHundred | src/app/service/recipe/recepies.service.ts:43-62 | With total 100 and pages of 30/30/30/10 the service completes after four answers with 100 recipes and 4 notifications. Its requests are at skips 0, 30, 60, 90, and a fifth load call issues nothing. |
| Paging.FilterByDifficulty | src/app/service/recipe/recepies.service.ts:83-98 | `'all'` gives the whole list. `'easy'` gives exactly the easy recipes, and any other selector exactly the medium ones. Each result is an order-preserving subsequence with each kept recipe as often as in the list. Only `recepList` changes. |
| Paging.MealTag | src/app/service/recipe/recepies.service.ts:101-117 | A meal selector has a tag iff it is breakfast, lunch or dinner, and the tag is the selector capitalised. |
| Paging.FilterByMealType | src/app/service/recipe/recepies.service.ts:100-121 | A known meal type gives exactly the recipes carrying its capitalised tag, in order. An unknown one leaves the previous `recepList` and the whole state unchanged. |
| Paging.HardSelectsMedium | src/app/service/recipe/recepies.service.ts:93-96 | Selector `'hard'` over a hard and a medium recipe yields only the medium one. |
| ListPage.TwoStagesAreOneFilter | src/app/pages/recepies-list-page/recepies-list-page.component.ts:170-184 | The difficulty stage followed by the meal-type stage equals one filter by the per-recipe keep decision. |
| ListPage.ApplyFilters | src/app/pages/recepies-list-page/recepies-list-page.component.ts:164-188 | The view is an order-preserving subsequence of the canonical list. A recipe is kept iff (the selector is `'all'` or difficulties are equal ignoring case) and (the meal type is unknown or the recipe has the capitalised tag). Each kept recipe occurs as often as in the list. |
| ListPage.ApplyFiltersAppend | src/app/pages/recepies-list-page/recepies-list-page.component.ts:168-186 | Filtering a list grown by a page gives the old view followed by the filtered page. |
| ListPage.ScenarioEasyLunch | src/app/pages/recepies-list-page/recepies-list-page.component.ts:171-184 | Selectors easy/lunch over an easy lunch and a medium lunch show only the easy lunch. |
| ListPage.ServiceDifficultyAgrees | src/app/service/recipe/recepies.service.ts:83-98 | On `'all'`, `'easy'` and `'medium'` the service difficulty filter equals the page's difficulty stage. |
| ListPage.ServiceTreatsOthersAsMedium | src/app/service/recipe/recepies.service.ts:93-96 | Every selector other than `'all'`/`'easy'` makes the service filter equal to the page's medium filter. |
| ListPage.HardDiverges | src/app/pages/recepies-list-page/recepies-list-page.component.ts:171-175 | On `'hard'` the page keeps the hard recipe while the service keeps the medium one. |
| ListPage.ServiceMealTypeAgrees | src/app/service/recipe/recepies.service.ts:100-121 | On a known meal type the service filter equals the page's meal stage. On an unknown one the service keeps its old result while the page shows all. |
| ListPage.MealTypeFromUrl | src/app/pages/recepies-list-page/recepies-list-page.component.ts:46-58 | The first URL segment is adopted only if it is breakfast, lunch or dinner, and an empty URL gives breakfast. Otherwise the current selector stays. |
| ListPage.DifficultyFromParams | src/app/pages/recepies-list-page/recepies-list-page.component.ts:61-64 | A missing or empty difficulty parameter gives `'all'`. Any other value is used as is, so the selector is never empty. |
| ListPage.MealTypeStaysKnown | src/app/pages/recepies-list-page/recepies-list-page.component.ts:47-57 | Starting from a known meal type, no URL makes the selector unknown. |
| ListPage.OnInit | src/app/pages/recepies-list-page/recepies-list-page.component.ts:35-66 | Initialisation acts on the service exactly as `initializeRecipes`. The meal selector is the one the URL's first segment selects (breakfast by default), the difficulty is the route parameter or `'all'`, the view is the filtered canonical list, and the guard is clear. |
| ListPage.OnRecordsChanged | src/app/pages/recepies-list-page/recepies-list-page.component.ts:40-42 | A notification recomputes the view from the current canonical list and changes nothing else. |
| ListPage.ViewGrowsWithPage | src/app/pages/recepies-list-page/recepies-list-page.component.ts:40-42 | After a successful page and its notification, the view is the previous view followed by the matching recipes of the new page. |
| ListPage.LocalLoadMore | src/app/pages/recepies-list-page/recepies-list-page.component.ts:144-162 | It returns at once while `isLoadingMore` is set. Otherwise it sets the flag, schedules the two-frame clearing chain and calls the service's load. |
| ListPage.GuardFrame | src/app/pages/recepies-list-page/recepies-list-page.component.ts:151-160 | The first chained frame re-applies the filters and the second clears the guard. |
| ListPage.CheckScrollPosition | src/app/pages/recepies-list-page/recepies-list-page.component.ts:126-142 | A request goes out iff `scrollWidth - (scrollLeft + clientWidth) < 1500`, the local guard is clear, the service is not complete and the service is idle. When the first three hold, the page calls its `loadMoreRecipes`: the store is the one the service's load call leaves, the guard is set and its two-frame clearing chain is scheduled. Without them nothing changes. |
| ListPage.AfterFrame | src/app/pages/recepies-list-page/recepies-list-page.component.ts:268-270 | After a frame, a request for the page at the cursor goes out iff the frame checked, fewer than 1500 px remain, the local guard is clear and the service is idle and not complete. A frame that does not check changes nothing. |
| ListPage.DragFrameRequests | src/app/pages/recepies-list-page/recepies-list-page.component.ts:263-271 | A drag frame issues a request iff a move had scheduled it, the incremented frame counter is a multiple of 5, and the carousel and service guards hold. |
| ListPage.MomentumFrameRequests | src/app/pages/recepies-list-page/recepies-list-page.component.ts:302-319 | A momentum frame issues a request iff the loop is still running (`abs(v) >= 0.1`), the incremented frame counter is a multiple of 10, and the same guards hold. |
| ListPage.DragCheckSeesWrittenOffset | src/app/pages/recepies-list-page/recepies-list-page.component.ts:126-142 | Checking the offset the drag frame has just written, with content width `W` and viewport width `C`, a request goes out iff a frame was pending, it is the fifth frame counted, the written offset exceeds `W - C - 1500`, and the page and service guards hold. |
| ListPage.MomentumCheckSeesWrittenOffset | src/app/pages/recepies-list-page/recepies-list-page.component.ts:126-142 | Checking the offset the momentum frame has just written (`scrollLeft - v * 16`), a request goes out iff the loop is running, it is the tenth frame counted, that offset exceeds `W - C - 1500`, and the guards hold. |
| ListPage.GuardClearsBeforeAnswer | src/app/pages/recepies-list-page/recepies-list-page.component.ts:151-160 | Two frames after a request the local guard is clear while the service is still loading. A second check then issues nothing and leaves the service unchanged. |
| ListPage.ServiceGuardSuppresses | src/app/pages/recepies-list-page/recepies-list-page.component.ts:139-148 | While the service is loading, the page's check issues no request and leaves the service unchanged. |
| ScrollTriggers.NearEndThreshold | src/app/pages/recepies-list-page/recepies-list-page.component.ts:135-139 | The horizontal trigger fires iff the offset is past `scrollWidth - clientWidth - 1500`. |
| ScrollTriggers.NearEndMonotone | src/app/pages/recepies-list-page/recepies-list-page.component.ts:135-139 | Scrolling further right never turns the horizontal trigger off. |
| ScrollTriggers.ScenarioCarousel | src/app/pages/recepies-list-page/recepies-list-page.component.ts:130-139 | Width 3000, viewport 400: at offset 100, 2500 px remain and it does not fire; at offset 1200, 1400 px remain and it fires. |
| ScrollTriggers.ReachedFractionNoDivision | src/app/components/footer/footer.component.ts:55-56 | For a positive height, the 80% trigger fires iff `scrollTop + clientHeight >= 0.8 * scrollHeight`. |
| ScrollTriggers.ReachedFractionZeroHeight | src/app/components/footer/footer.component.ts:55-56 | For a zero height, where JavaScript's division gives +Infinity, NaN or -Infinity, the trigger fires iff `scrollTop + clientHeight > 0`. |
| ScrollTriggers.ReachedFractionMonotone | src/app/components/footer/footer.component.ts:55-56 | Scrolling further down never turns the vertical trigger off. |
| ScrollTriggers.ScenarioFooterBottom | src/app/components/footer/footer.component.ts:50-56 | Top 750, viewport 250, height 1000 gives ratio 1.0 and fires. |
| DragScroll.MouseDown | src/app/pages/recepies-list-page/recepies-list-page.component.ts:208-238 | Mouse-down enters dragging with instant scroll behaviour. It sets `startX = pageX - offsetLeft`, the anchor to the current offset, `lastX = pageX`, `lastTime = now` and velocity 0, without moving the container. |
| DragScroll.MouseMove | src/app/pages/recepies-list-page/recepies-list-page.component.ts:240-263 | A move is ignored unless dragging. Velocity becomes `(x - lastX) / dt` only when `dt > 0` and is kept otherwise. The single pending frame is replaced by one for the latest pointer, and nothing else changes. |
| DragScroll.DragFrame | src/app/pages/recepies-list-page/recepies-list-page.component.ts:263-272 | A pending frame writes `anchor - ((pageX - offsetLeft) - startX) * 1.5`, counts one frame and clears the pending frame, changing no other field. It checks pagination iff the count is a multiple of 5. Without a pending frame nothing happens. |
| DragScroll.MouseUp | src/app/pages/recepies-list-page/recepies-list-page.component.ts:275-295 | Release leaves dragging, cancels the pending drag frame and starts momentum, changing nothing else. |
| DragScroll.MomentumFrame | src/app/pages/recepies-list-page/recepies-list-page.component.ts:302-322 | The loop stops and restores smooth behaviour exactly when `abs(v) < 0.1`. Otherwise the frame does `scrollLeft -= v * 16` and `v *= 0.95` and counts one frame, changing no other field. So the container moves against the velocity and the speed strictly drops, as does the termination measure. Pagination is checked iff the shared count is a multiple of 10. |
| DragScroll.MeasureDrops | src/app/pages/recepies-list-page/recepies-list-page.component.ts:303-313 | At speed at least 0.1 a friction step lowers `floor(abs(v) * 200)` by at least one. |
| DragScroll.Settle | src/app/pages/recepies-list-page/recepies-list-page.component.ts:297-325 | The momentum loop terminates after at most `floor(abs(v0) * 200)` moving frames, below the cutoff with smooth behaviour restored. The container moves only against the release velocity, and pagination checks equal the multiples of 10 that the shared counter passed. |
| DragScroll.MouseDownCancelsMomentum | src/app/pages/recepies-list-page/recepies-list-page.component.ts:212-216 | After mouse-down, a momentum frame that was scheduled performs no write. |
| DragScroll.DragFollowsPointer | src/app/pages/recepies-list-page/recepies-list-page.component.ts:263-266 | After pressing at `x0`, any moves each followed by its own frame, and a last move to `x`, the last frame puts the container at the offset at press time minus `(x - x0) * 1.5`. The offsets written by earlier frames do not accumulate. |
| DragScroll.FramesKeepAnchor | src/app/pages/recepies-list-page/recepies-list-page.component.ts:240-271 | Moves and their frames never change mode, anchor or `startX`. While dragging, each move's frame counts exactly once. |
| DragScroll.SameInstantKeepsVelocity | src/app/pages/recepies-list-page/recepies-list-page.component.ts:251-253 | A move with `dt = 0` keeps the previous velocity. |
| DragScroll.OneFramePerMove | src/app/pages/recepies-list-page/recepies-list-page.component.ts:259-263 | At most one drag frame is pending: once it has run, a further frame writes nothing. |
| DragScroll.MouseUpCancelsDragFrame | src/app/pages/recepies-list-page/recepies-list-page.component.ts:288-291 | After release the cancelled drag frame performs no write. |
| DragScroll.ScenarioFling | src/app/pages/recepies-list-page/recepies-list-page.component.ts:248-313 | Dragging from x = 100 to x = 180 over 100 ms gives velocity 0.8 and moves the container from 500 to 380. The first momentum frame then moves it to 367.2 with velocity 0.76. |
| Footer.UpdateRecipes | src/app/components/footer/footer.component.ts:62-65 | The local copy is an element-wise copy of the canonical list. |
| Footer.OnInit | src/app/components/footer/footer.component.ts:17-31 | The service is initialised only when its list is empty, and afterwards the local copy equals the canonical list. |
| Footer.OnInitGuardRedundant | src/app/components/footer/footer.component.ts:19-21 | The footer's emptiness check acts exactly like calling `initializeRecipes` directly. |
| Footer.PollTick | src/app/components/footer/footer.component.ts:33-37 | A tick refreshes only an empty local copy, to the canonical list. A filled copy is left untouched. |
| Footer.PollTickIdempotent | src/app/components/footer/footer.component.ts:33-37 | A second tick on the same service state changes nothing. |
| Footer.PollTickAgreesWithNotification | src/app/components/footer/footer.component.ts:16-37 | After initialisation or a notification a tick changes nothing, and a tick on an empty copy gives what the notification gives. |
| Footer.OnRecordsChanged | src/app/components/footer/footer.component.ts:24-26 | A notification makes the local copy equal to the canonical list. |
| Footer.OnScroll | src/app/components/footer/footer.component.ts:46-60 | Below the 80% mark nothing happens. Otherwise the service's load is called, with no local guard, and the footer itself is unchanged. |
| Footer.OnScrollRequests | src/app/components/footer/footer.component.ts:54-57 | For a positive height a request goes out iff `top + client >= 0.8 * height` and the service is idle and not complete. |
| Footer.RepeatedScrollOneFetch | src/app/components/footer/footer.component.ts:56-57 | Two scrolls before an answer never issue two requests. After the first request the second scroll leaves the service unchanged. |
| Footer.ScenarioScrolledToBottom | src/app/components/footer/footer.component.ts:50-57 | At top 750, viewport 250, height 1000 with an idle service, the footer asks for the page at the cursor. |
| Footer.FooterFollowsPages | src/app/components/footer/footer.component.ts:24-26 | After a successful page and its notification, the local copy is the old list followed by the page. |

## Left out

- `getRecipeById` and the item page: a single HTTP fetch and a navigation on error, with no logic of their own.
- The HTTP transport, the URL string, `console.error` logging, and the `Observable`/`Subscription` plumbing. They are replaced by request outputs, reply events and a notification counter.
- Timing: `requestAnimationFrame`, `setTimeout` and `setInterval` are explicit steps. Neither wall-clock time nor the 5-second cutoff of the footer's polling is modelled.
- The footer's delayed `updateRecipes` 100 ms after a scroll is not a separate step. It is the same copy as `Footer.UpdateRecipes`.
- ListPage.ApplyFilters: computed synchronously. In the source the result is written one animation frame later.
- The scroll listener's `ticking` throttle, which coalesces scroll events into one `checkScrollPosition` per frame, is not modelled.
- ListPage.LocalLoadMore: schedules the clearing chain once, at subscription time. A success that arrives before the chain ends and starts a second chain is not modelled.
- DOM side effects (cursor, `userSelect`, adding and removing listeners, image-error placeholders, teardown in `ngOnDestroy`) are not modelled. Only `scrollBehavior` is kept, as the `smooth` flag.
- The null checks on the scroll container and the event target are left out. The model assumes both are present.
- The browser's clamping of `scrollLeft` to the scrollable range is left out, because the code does not clamp itself.
- Floating-point rounding: all geometry and velocity is exact `real`.
- `toLowerCase` is modelled for ASCII letters only.
- ListPage.OnInit: takes one URL value and one parameter value instead of subscribing to the route's streams.
- `onDifficultyChange`/`onMealTypeChange` (router navigation only), the routes and the root component.
- Recipe fields the core never reads (images, ingredients, ratings and so on) are dropped.
