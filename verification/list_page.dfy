/** The recipe list page: its filter projection (`applyFilters`), the
    selector values it takes from the route, the horizontal pagination check
    and its local `isLoadingMore` guard. The drag and momentum handlers of
    the same page are in module DragScroll. */
module ListPage {
  import opened Recipes
  import opened Subsequences
  import opened Paging
  import opened ScrollTriggers
  import opened DragScroll

  /** Page state: the two selectors, the displayed view (`recepItem`), the
      local guard, and how many animation frames remain before the guard's
      frame chain clears it (2 = filters not yet re-applied, 1 = clears on
      the next frame, 0 = no chain scheduled). */
  datatype Page = Page(difficulty: string, mealType: string, view: seq<Recipe>, isLoadingMore: bool, clearIn: nat)

  /** An operation's effect on the page and on the shared service, and the
      request the service issued, if any. */
  datatype PageOutcome = PageOutcome(page: Page, store: Store, request: Option<Request>)

  // ---------------------------------------------------------------------
  // applyFilters

  /** The keep decision of `applyFilters`, stated for one recipe: the
      difficulty matches ignoring case unless the selector is "all", and a
      known meal type requires its capitalised tag. */
  predicate Keeps(r: Recipe, difficulty: string, mealType: string)
  {
    && (difficulty == "all" || EqualsIgnoreCase(r.difficulty, difficulty))
    && (mealType !in {"breakfast", "lunch", "dinner"} || HasTag(r, Capitalise(mealType)))
  }

  function KeepsFn(difficulty: string, mealType: string): Recipe -> bool
  {
    (r: Recipe) => Keeps(r, difficulty, mealType)
  }

  function MatchesFn(difficulty: string): Recipe -> bool
  {
    (r: Recipe) => EqualsIgnoreCase(r.difficulty, difficulty)
  }

  function TagFn(tag: string): Recipe -> bool
  {
    (r: Recipe) => HasTag(r, tag)
  }

  /** The difficulty stage of `applyFilters`. */
  function ByDifficulty(list: seq<Recipe>, difficulty: string): seq<Recipe>
  {
    if difficulty != "all" then Filter(list, MatchesFn(difficulty)) else list
  }

  /** The meal-type stage of `applyFilters`. */
  function ByMealType(list: seq<Recipe>, mealType: string): seq<Recipe>
  {
    match MealTag(mealType)
    case Some(tag) => Filter(list, TagFn(tag))
    case None => list
  }

  /** The two stages together are a single filter by `Keeps`. */
  lemma TwoStagesAreOneFilter(list: seq<Recipe>, difficulty: string, mealType: string)
    ensures ByMealType(ByDifficulty(list, difficulty), mealType) == Filter(list, KeepsFn(difficulty, mealType))
  {
    var keeps := KeepsFn(difficulty, mealType);
    match MealTag(mealType)
    case Some(tag) =>
      assert tag == Capitalise(mealType);
      if difficulty != "all" {
        FilterCompose(list, MatchesFn(difficulty), TagFn(tag), keeps);
      } else {
        FilterCongruent(list, TagFn(tag), keeps);
      }
    case None =>
      if difficulty != "all" {
        FilterCongruent(list, MatchesFn(difficulty), keeps);
      } else {
        FilterKeepsAll(list, keeps);
      }
  }

  /** `applyFilters`: an order-preserving subsequence of the canonical list
      holding exactly the recipes `Keeps` accepts, each as often as in the
      list. The canonical list itself is an input and is not changed. */
  function ApplyFilters(list: seq<Recipe>, difficulty: string, mealType: string): (view: seq<Recipe>)
    ensures IsSubsequence(view, list)
    ensures forall i | 0 <= i < |view| :: Keeps(view[i], difficulty, mealType)
    ensures forall x :: multiset(view)[x] == if Keeps(x, difficulty, mealType) then multiset(list)[x] else 0
  {
    TwoStagesAreOneFilter(list, difficulty, mealType);
    ByMealType(ByDifficulty(list, difficulty), mealType)
  }

  /** A grown canonical list gives the old view followed by the view of
      the appended page: re-filtering after a page never reorders or drops
      what was shown. */
  lemma ApplyFiltersAppend(loaded: seq<Recipe>, items: seq<Recipe>, difficulty: string, mealType: string)
    ensures ApplyFilters(loaded + items, difficulty, mealType)
         == ApplyFilters(loaded, difficulty, mealType) + ApplyFilters(items, difficulty, mealType)
  {
    TwoStagesAreOneFilter(loaded + items, difficulty, mealType);
    TwoStagesAreOneFilter(loaded, difficulty, mealType);
    TwoStagesAreOneFilter(items, difficulty, mealType);
    FilterAppend(loaded, items, KeepsFn(difficulty, mealType));
  }

  /** Selectors "easy"/"lunch" over an easy lunch and a medium lunch show
      only the easy one. */
  lemma ScenarioEasyLunch()
    ensures var easy := Recipe(1, "a", "Easy", ["Lunch"]);
            var medium := Recipe(2, "b", "Medium", ["Lunch"]);
            ApplyFilters([easy, medium], "easy", "lunch") == [easy]
  {
    var easy := Recipe(1, "a", "Easy", ["Lunch"]);
    var medium := Recipe(2, "b", "Medium", ["Lunch"]);
    assert ToLower("Easy") == "easy" && ToLower("easy") == "easy" && ToLower("Medium") == "medium";
    assert Capitalise("lunch") == "Lunch";
    assert Keeps(easy, "easy", "lunch") && !Keeps(medium, "easy", "lunch");
    TwoStagesAreOneFilter([easy, medium], "easy", "lunch");
    assert [easy, medium][1..] == [medium];
  }

  // ---------------------------------------------------------------------
  // Page filter against the service's filters

  /** On the selectors the page offers ("all", "easy", "medium") the
      service's difficulty filter agrees with the page's difficulty stage. */
  lemma ServiceDifficultyAgrees(s: Store, difficulty: string)
    requires difficulty in {"all", "easy", "medium"}
    ensures FilterByDifficulty(s, difficulty).recepList == ByDifficulty(s.list, difficulty)
  {
    if difficulty == "easy" {
      assert ToLower("easy") == "easy";
      FilterCongruent(s.list, (x: Recipe) => LowerIs(x, "easy"), MatchesFn("easy"));
    } else if difficulty == "medium" {
      assert ToLower("medium") == "medium";
      FilterCongruent(s.list, (x: Recipe) => LowerIs(x, "medium"), MatchesFn("medium"));
    }
  }

  /** On a known meal type the service's meal filter agrees with the page's
      meal stage; on an unknown one the service keeps its previous result
      while the page shows every recipe. */
  lemma ServiceMealTypeAgrees(s: Store, mealType: string)
    ensures MealTag(mealType).Some? ==> FilterByMealType(s, mealType).recepList == ByMealType(s.list, mealType)
    ensures MealTag(mealType).None? ==>
              FilterByMealType(s, mealType).recepList == s.recepList && ByMealType(s.list, mealType) == s.list
  {
    match MealTag(mealType)
    case Some(tag) =>
      FilterCongruent(s.list, (x: Recipe) => HasTag(x, tag), TagFn(tag));
    case None =>
  }

  /** The two difficulty filters disagree on "hard": the page keeps the hard
      recipe and the service keeps the medium one. */
  lemma HardDiverges()
    ensures var hard := Recipe(1, "a", "Hard", ["Dinner"]);
            var medium := Recipe(2, "b", "Medium", ["Dinner"]);
            var s := Paging.Initial().(list := [hard, medium]);
            && ByDifficulty(s.list, "hard") == [hard]
            && FilterByDifficulty(s, "hard").recepList == [medium]
  {
    var hard := Recipe(1, "a", "Hard", ["Dinner"]);
    var medium := Recipe(2, "b", "Medium", ["Dinner"]);
    assert ToLower("Hard") == "hard" && ToLower("hard") == "hard" && ToLower("Medium") == "medium";
    assert MatchesFn("hard")(hard) && !MatchesFn("hard")(medium);
    assert [hard, medium][1..] == [medium];
    HardSelectsMedium();
  }

  /** For every non-"all" selector other than "easy", the service filter is
      the page's medium filter, whatever the selector says. */
  lemma ServiceTreatsOthersAsMedium(s: Store, difficulty: string)
    requires difficulty != "all" && difficulty != "easy"
    ensures FilterByDifficulty(s, difficulty).recepList == ByDifficulty(s.list, "medium")
  {
    assert ToLower("medium") == "medium";
    FilterCongruent(s.list, (x: Recipe) => LowerIs(x, "medium"), MatchesFn("medium"));
  }

  // ---------------------------------------------------------------------
  // Selectors from the route

  /** The meal type taken from the first URL segment: adopted only when it
      is breakfast, lunch or dinner; the bare root path means breakfast. */
  function MealTypeFromUrl(current: string, segments: seq<string>): (m: string)
    ensures |segments| == 0 ==> m == "breakfast"
    ensures |segments| > 0 && segments[0] in {"breakfast", "lunch", "dinner"} ==> m == segments[0]
    ensures |segments| > 0 && segments[0] !in {"breakfast", "lunch", "dinner"} ==> m == current
  {
    if |segments| > 0 then
      if segments[0] in ["breakfast", "lunch", "dinner"] then segments[0] else current
    else "breakfast"
  }

  /** `params['difficulty'] || 'all'`: a missing or empty parameter means
      "all"; any other value is taken as it is. */
  function DifficultyFromParams(param: Option<string>): (d: string)
    ensures d != ""
    ensures param.Some? && param.value != "" ==> d == param.value
    ensures param.None? || param.value == "" ==> d == "all"
  {
    match param
    case Some(v) => if v != "" then v else "all"
    case None => "all"
  }

  /** The meal selector stays one of the three known meal types whatever
      URL arrives. */
  lemma MealTypeStaysKnown(current: string, segments: seq<string>)
    requires current in {"breakfast", "lunch", "dinner"}
    ensures MealTypeFromUrl(current, segments) in {"breakfast", "lunch", "dinner"}
    ensures MealTag(MealTypeFromUrl(current, segments)).Some?
  {
  }

  /** `ngOnInit`: initialise the service, then the route and the replayed
      load notification set the selectors and the view. */
  function OnInit(s: Store, segments: seq<string>, param: Option<string>): (r: PageOutcome)
    ensures r.store == Initialize(s).store && r.request == Initialize(s).request
    ensures r.page.mealType == MealTypeFromUrl("breakfast", segments)
    ensures r.page.difficulty == DifficultyFromParams(param)
    ensures r.page.mealType in {"breakfast", "lunch", "dinner"}
    ensures r.page.view == ApplyFilters(r.store.list, r.page.difficulty, r.page.mealType)
    ensures !r.page.isLoadingMore && r.page.clearIn == 0
  {
    var init := Initialize(s);
    var m := MealTypeFromUrl("breakfast", segments);
    var d := DifficultyFromParams(param);
    PageOutcome(Page(d, m, ApplyFilters(init.store.list, d, m), false, 0), init.store, init.request)
  }

  /** The page's subscription to the load notification: re-apply the
      filters to the current canonical list. */
  function OnRecordsChanged(p: Page, s: Store): (r: Page)
    ensures r.view == ApplyFilters(s.list, p.difficulty, p.mealType)
    ensures r.(view := p.view) == p
  {
    p.(view := ApplyFilters(s.list, p.difficulty, p.mealType))
  }

  /** After a successful page and its notification the view is the old
      view extended by the matching recipes of the new page. */
  lemma ViewGrowsWithPage(p: Page, s: Store, items: seq<Recipe>, total: int)
    requires Inv(s) && s.loading
    requires p.view == ApplyFilters(s.list, p.difficulty, p.mealType)
    ensures var answered := Step(s, Deliver(Ok(items, total))).store;
            OnRecordsChanged(p, answered).view == p.view + ApplyFilters(items, p.difficulty, p.mealType)
  {
    ApplyFiltersAppend(s.list, items, p.difficulty, p.mealType);
  }

  // ---------------------------------------------------------------------
  // Pagination from the carousel

  /** The page's `loadMoreRecipes`: return at once while the local guard is
      set; otherwise set it and ask the service. Subscribing to the
      notification replays its last value at once, so the two-frame chain
      that clears the guard is scheduled now, not when the page arrives. */
  function LocalLoadMore(p: Page, s: Store): (r: PageOutcome)
    ensures p.isLoadingMore ==> r == PageOutcome(p, s, None)
    ensures !p.isLoadingMore ==>
              && r.page == p.(isLoadingMore := true, clearIn := 2)
              && r.store == LoadMore(s).store
              && r.request == LoadMore(s).request
  {
    if p.isLoadingMore then PageOutcome(p, s, None)
    else
      var o := LoadMore(s);
      PageOutcome(p.(isLoadingMore := true, clearIn := 2), o.store, o.request)
  }

  /** One animation frame of the guard's chain: the first re-applies the
      filters, the second clears the guard. */
  function GuardFrame(p: Page, s: Store): (r: Page)
    ensures p.clearIn == 0 ==> r == p
    ensures p.clearIn == 1 ==> r == p.(isLoadingMore := false, clearIn := 0)
    ensures p.clearIn >= 2 ==> r == OnRecordsChanged(p, s).(clearIn := 1)
  {
    if p.clearIn >= 2 then p.(view := ApplyFilters(s.list, p.difficulty, p.mealType), clearIn := 1)
    else if p.clearIn == 1 then p.(isLoadingMore := false, clearIn := 0)
    else p
  }

  /** `checkScrollPosition`: ask for more when fewer than 1500 units remain
      past the viewport, the local guard is clear and the service is not
      complete. A request actually goes out only if the service is also
      idle. */
  function CheckScrollPosition(p: Page, s: Store, g: Axis): (r: PageOutcome)
    ensures r.request.Some? <==> NearEnd(g) && !p.isLoadingMore && !s.allLoaded && !s.loading
    ensures r.request.Some? ==> r.request.value == Request(s.page * PageSize, PageSize)
    ensures !(NearEnd(g) && !p.isLoadingMore && !s.allLoaded) ==> r == PageOutcome(p, s, None)
    ensures NearEnd(g) && !p.isLoadingMore && !s.allLoaded ==>
              r.store == LoadMore(s).store && r.page == p.(isLoadingMore := true, clearIn := 2)
  {
    if NearEnd(g) && !p.isLoadingMore && !s.allLoaded then LocalLoadMore(p, s)
    else PageOutcome(p, s, None)
  }

  /** A drag or momentum frame runs the pagination check only when the
      frame says so (every fifth drag frame, every tenth momentum frame);
      a frame that does not check changes nothing here. */
  function AfterFrame(p: Page, s: Store, f: Frame, g: Axis): (r: PageOutcome)
    ensures r.request.Some? <==> f.check && NearEnd(g) && !p.isLoadingMore && !s.allLoaded && !s.loading
    ensures r.request.Some? ==> r.request.value == Request(s.page * PageSize, PageSize)
    ensures !f.check ==> r == PageOutcome(p, s, None)
    ensures f.check && NearEnd(g) && !p.isLoadingMore && !s.allLoaded ==>
              r.store == LoadMore(s).store && r.page == p.(isLoadingMore := true, clearIn := 2)
  {
    if f.check then CheckScrollPosition(p, s, g) else PageOutcome(p, s, None)
  }

  /** A drag frame asks the service for a page exactly when a move had
      scheduled it, it is the fifth frame counted, the carousel is near its
      end, the local guard is clear and the service is idle and not
      complete. */
  lemma DragFrameRequests(p: Page, s: Store, d: Drag, offsetLeft: real, g: Axis)
    ensures AfterFrame(p, s, DragFrame(d, offsetLeft), g).request.Some? <==>
              && d.pending.Some? && (d.frameCount + 1) % DragCheckEvery == 0
              && NearEnd(g) && !p.isLoadingMore && !s.allLoaded && !s.loading
  {
  }

  /** A momentum frame asks the service for a page exactly when the loop
      is still running, it is the tenth frame counted, and the same guards
      hold. */
  lemma MomentumFrameRequests(p: Page, s: Store, d: Drag, g: Axis)
    ensures AfterFrame(p, s, MomentumFrame(d), g).request.Some? <==>
              && d.mode == Momentum && Abs(d.velocity) >= StopSpeed
              && (d.frameCount + 1) % MomentumCheckEvery == 0
              && NearEnd(g) && !p.isLoadingMore && !s.allLoaded && !s.loading
  {
  }

  /** The check after a drag frame reads the offset that frame has just
      written: with content width `width` and viewport `client`, a request
      goes out exactly when the written offset is within 1500 units of the
      end, on every fifth frame, with the guards clear. */
  lemma DragCheckSeesWrittenOffset(p: Page, s: Store, d: Drag, offsetLeft: real, width: real, client: real)
    ensures var f := DragFrame(d, offsetLeft);
            AfterFrame(p, s, f, Axis(f.next.scrollLeft, width, client)).request.Some? <==>
              && d.pending.Some? && (d.frameCount + 1) % DragCheckEvery == 0
              && d.anchor - ((d.pending.value - offsetLeft) - d.startX) * DragGain > width - client - EndDistance
              && !p.isLoadingMore && !s.allLoaded && !s.loading
  {
    DragFrameRequests(p, s, d, offsetLeft, Axis(DragFrame(d, offsetLeft).next.scrollLeft, width, client));
  }

  /** The same for a momentum frame, whose written offset is the previous
      one less 16 ms worth of velocity. */
  lemma MomentumCheckSeesWrittenOffset(p: Page, s: Store, d: Drag, width: real, client: real)
    ensures var f := MomentumFrame(d);
            AfterFrame(p, s, f, Axis(f.next.scrollLeft, width, client)).request.Some? <==>
              && d.mode == Momentum && Abs(d.velocity) >= StopSpeed
              && (d.frameCount + 1) % MomentumCheckEvery == 0
              && d.scrollLeft - d.velocity * FrameMs > width - client - EndDistance
              && !p.isLoadingMore && !s.allLoaded && !s.loading
  {
    MomentumFrameRequests(p, s, d, Axis(MomentumFrame(d).next.scrollLeft, width, client));
  }

  /** The local guard clears two frames after the request whether or not
      the page has arrived; what keeps a second check from issuing a
      duplicate request is the service's own in-flight flag. */
  lemma GuardClearsBeforeAnswer(p: Page, s: Store, g: Axis)
    requires Inv(s) && !s.loading && !s.allLoaded
    requires !p.isLoadingMore && NearEnd(g)
    ensures var o := CheckScrollPosition(p, s, g);
            var cleared := GuardFrame(GuardFrame(o.page, o.store), o.store);
            var again := CheckScrollPosition(cleared, o.store, g);
            && o.request.Some?
            && !cleared.isLoadingMore
            && o.store.loading
            && again.request.None?
            && again.store == o.store
  {
  }

  /** Local guard clear, service still loading: the check still marks the
      page as loading but the service issues nothing. */
  lemma ServiceGuardSuppresses(p: Page, s: Store, g: Axis)
    requires Inv(s) && s.loading
    ensures CheckScrollPosition(p, s, g).request.None?
    ensures CheckScrollPosition(p, s, g).store == s
  {
  }
}
