/** The recipe service: a paged loader that accumulates the canonical list,
    guarded by an in-flight flag and a completion flag, plus the service's own
    difficulty and meal-type filters.

    The HTTP request is not performed here: issuing a page is an output
    `Request(skip, limit)`, and its answer comes back later as a `Deliver`
    event carrying `Ok(items, total)` or `Err`. */
module Paging {
  import opened Recipes
  import opened Subsequences

  /** Page size of every request. */
  const PageSize: nat := 30

  datatype Request = Request(skip: nat, limit: nat)

  /** The answer of the remote page source. */
  datatype Reply = Ok(items: seq<Recipe>, total: int) | Err

  /** State of the service.
      - `list`: the canonical accumulated list (`standartrecepList`);
      - `recepList`: the list the service filters last produced;
      - `page`: the page cursor (`currentPage`);
      - `total`: the source-reported total (`totalRecipes`, 0 = unknown);
      - `loading`: the in-flight flag (`isLoading`);
      - `allLoaded`: the completion flag (`_allRecipesLoaded`);
      - `inFlight`: requests issued and not yet answered;
      - `notifications`: how many times `recipesLoaded$` was fed `true`. */
  datatype Store = Store(
    list: seq<Recipe>,
    recepList: seq<Recipe>,
    page: nat,
    total: int,
    loading: bool,
    allLoaded: bool,
    inFlight: nat,
    notifications: nat)

  /** What an operation did: the new state and the request it issued, if any. */
  datatype Outcome = Outcome(store: Store, request: Option<Request>)

  /** What `getRecipesPage` hands back: an HTTP request, or, once everything
      is loaded, an immediately answering empty page. */
  datatype Fetch = Http(request: Request) | Immediate(items: seq<Recipe>, total: int)

  datatype Issued = Issued(store: Store, fetch: Fetch)

  /** The freshly constructed service. */
  function Initial(): Store
  {
    Store([], [], 0, 0, false, false, 0, 0)
  }

  /** The service's state invariant: the in-flight flag is exactly the
      presence of one outstanding request, and completion implies nothing is
      in flight and the list has reached the total. */
  ghost predicate Inv(s: Store)
  {
    && s.inFlight == (if s.loading then 1 else 0)
    && (s.allLoaded ==> !s.loading)
    && (s.allLoaded ==> |s.list| >= s.total)
  }

  /** `getRecipesPage`. Asks for the page at the cursor and marks a request
      as in flight; once complete it answers at once with an empty page. */
  function GetRecipesPage(s: Store): (r: Issued)
    ensures s.allLoaded <==> r.fetch.Immediate?
    ensures s.allLoaded ==> r.store == s && r.fetch.items == [] && r.fetch.total == s.total
    ensures !s.allLoaded ==>
              && r.fetch.request.limit == PageSize
              && r.fetch.request.skip == s.page * PageSize
              && r.store.loading
              && r.store.inFlight == s.inFlight + 1
              && r.store.(loading := s.loading, inFlight := s.inFlight) == s
  {
    if s.allLoaded then Issued(s, Immediate([], s.total))
    else Issued(s.(loading := true, inFlight := s.inFlight + 1), Http(Request(s.page * PageSize, PageSize)))
  }

  /** `loadMoreRecipes`, request half: a no-op while a page is in flight or
      after completion, otherwise one request for the page at the cursor. */
  function LoadMore(s: Store): (r: Outcome)
    ensures r.request.Some? <==> !s.loading && !s.allLoaded
    ensures r.request.None? ==> r.store == s
    ensures r.request.Some? ==>
              && r.request.value == Request(s.page * PageSize, PageSize)
              && r.store.loading && r.store.inFlight == s.inFlight + 1
              && r.store.(loading := s.loading, inFlight := s.inFlight) == s
  {
    if s.loading || s.allLoaded then Outcome(s, None)
    else
      var issued := GetRecipesPage(s);
      Outcome(issued.store, Some(issued.fetch.request))
  }

  /** `loadMoreRecipes`, answer half: the `next` and `error` callbacks. */
  function OnReply(s: Store, reply: Reply): (r: Store)
    requires s.inFlight > 0
    ensures !r.loading && r.inFlight == s.inFlight - 1
    ensures reply.Err? ==> r == s.(loading := false, inFlight := s.inFlight - 1)
    ensures reply.Ok? ==>
              && r.list == s.list + reply.items
              && r.recepList == r.list
              && r.page == s.page + 1
              && r.total == (if s.total == 0 then reply.total else s.total)
              && (r.allLoaded <==> s.allLoaded || |r.list| >= r.total)
              && r.notifications == s.notifications + 1
  {
    match reply
    case Err => s.(loading := false, inFlight := s.inFlight - 1)
    case Ok(items, replyTotal) =>
      var total := if s.total == 0 then replyTotal else s.total;
      var list := s.list + items;
      Store(list, list, s.page + 1, total, false,
            if |list| >= total then true else s.allLoaded,
            s.inFlight - 1, s.notifications + 1)
  }

  /** `initializeRecipes`: only when nothing was loaded yet, rewind the
      cursor, clear completion and load once. */
  function Initialize(s: Store): (r: Outcome)
    ensures |s.list| > 0 ==> r == Outcome(s, None)
    ensures |s.list| == 0 && !s.loading ==>
              && r.request == Some(Request(0, PageSize))
              && r.store == s.(page := 0, allLoaded := false, loading := true, inFlight := s.inFlight + 1)
    ensures |s.list| == 0 && s.loading ==> r == Outcome(s.(page := 0, allLoaded := false), None)
  {
    if |s.list| == 0 then LoadMore(s.(page := 0, allLoaded := false))
    else Outcome(s, None)
  }

  /** The calls the rest of the application makes, and the arrival of an
      answer to the outstanding request. */
  datatype Event = LoadMoreCall | InitializeCall | Deliver(reply: Reply)

  /** One event. An answer arriving with no request outstanding has no
      callback to run and changes nothing. */
  function Step(s: Store, e: Event): Outcome
  {
    match e
    case LoadMoreCall => LoadMore(s)
    case InitializeCall => Initialize(s)
    case Deliver(reply) =>
      if s.inFlight == 0 then Outcome(s, None) else Outcome(OnReply(s, reply), None)
  }

  /** The run of a sequence of events: the final state and every request
      issued on the way, in order. */
  datatype Trace = Trace(store: Store, requests: seq<Request>)

  function Run(s: Store, events: seq<Event>): (t: Trace)
    decreases |events|
  {
    if |events| == 0 then Trace(s, [])
    else
      var o := Step(s, events[0]);
      var rest := Run(o.store, events[1..]);
      Trace(rest.store, (if o.request.Some? then [o.request.value] else []) + rest.requests)
  }

  // ---------------------------------------------------------------------
  // Invariants of the state machine

  /** The fresh service satisfies the invariant. */
  lemma InitialInv()
    ensures Inv(Initial())
    ensures Initial().list == [] && !Initial().loading && !Initial().allLoaded
  {
  }

  /** Every event preserves the invariant; in particular no event can put a
      second request in flight. */
  lemma StepInv(s: Store, e: Event)
    requires Inv(s)
    ensures Inv(Step(s, e).store)
    ensures Step(s, e).store.inFlight <= 1
    ensures Step(s, e).request.Some? ==> s.inFlight == 0
  {
  }

  /** At most one fetch in flight along every run. */
  lemma {:induction false} RunInv(s: Store, events: seq<Event>)
    requires Inv(s)
    ensures Inv(Run(s, events).store)
    ensures Run(s, events).store.inFlight <= 1
    decreases |events|
  {
    if |events| > 0 {
      StepInv(s, events[0]);
      RunInv(Step(s, events[0]).store, events[1..]);
    }
  }

  /** While a request is outstanding, further load calls issue nothing. */
  lemma LoadMoreWhileLoading(s: Store)
    requires Inv(s) && s.loading
    ensures LoadMore(s) == Outcome(s, None)
    ensures Step(LoadMore(s).store, LoadMoreCall).request.None?
  {
  }

  /** Two load calls before the first answer: exactly one request. */
  lemma {:induction false} TwoCallsOneFetch(s: Store)
    requires Inv(s)
    ensures |Run(s, [LoadMoreCall, LoadMoreCall]).requests| == (if s.loading || s.allLoaded then 0 else 1)
  {
    var o := Step(s, LoadMoreCall);
    StepInv(s, LoadMoreCall);
    assert [LoadMoreCall, LoadMoreCall][1..] == [LoadMoreCall];
    assert Run(o.store, [LoadMoreCall]).requests == [];
  }

  /** The canonical list only grows by appending: the old list is always a
      prefix of the new one, and only a successful answer changes it. */
  lemma StepAppends(s: Store, e: Event)
    ensures s.list <= Step(s, e).store.list
    ensures Step(s, e).store.list != s.list ==> e.Deliver? && e.reply.Ok? && s.inFlight > 0
  {
  }

  lemma {:induction false} RunAppends(s: Store, events: seq<Event>)
    ensures s.list <= Run(s, events).store.list
    decreases |events|
  {
    if |events| > 0 {
      StepAppends(s, events[0]);
      RunAppends(Step(s, events[0]).store, events[1..]);
    }
  }

  /** A failed page changes nothing but the in-flight flag: no item, no
      cursor move, no total, no completion change and no notification. */
  lemma ErrorChangesOnlyLoading(s: Store)
    requires Inv(s) && s.loading
    ensures Step(s, Deliver(Err)).store == s.(loading := false, inFlight := 0)
    ensures Step(s, Deliver(Err)).request.None?
  {
  }

  /** The total is taken from the first answer with a nonzero total and is
      never overwritten afterwards. */
  lemma StepKeepsTotal(s: Store, e: Event)
    requires s.total != 0
    ensures Step(s, e).store.total == s.total
  {
  }

  /** Completion is sticky: no load and no answer clears it, and
      initialisation clears it only while the list is still empty. */
  lemma StepKeepsComplete(s: Store, e: Event)
    requires s.allLoaded
    requires e.InitializeCall? ==> |s.list| > 0
    ensures Step(s, e).store.allLoaded
  {
  }

  /** Once complete with data, the service is frozen: no event issues a
      request, the list and the cursor stay as they are. */
  lemma {:induction false} RunAfterComplete(s: Store, events: seq<Event>)
    requires Inv(s) && s.allLoaded && |s.list| > 0
    ensures Run(s, events).requests == []
    ensures Run(s, events).store.list == s.list
    ensures Run(s, events).store.page == s.page
    ensures Run(s, events).store.allLoaded
    decreases |events|
  {
    if |events| > 0 {
      var o := Step(s, events[0]);
      assert o.store.list == s.list && o.store.page == s.page && o.request.None?;
      StepInv(s, events[0]);
      RunAfterComplete(o.store, events[1..]);
    }
  }

  /** `initializeRecipes` twice in a row issues at most one request: the
      second call finds either data or a request in flight. */
  lemma InitializeIdempotent(s: Store)
    requires Inv(s)
    ensures Step(Step(s, InitializeCall).store, InitializeCall).request.None?
    ensures |s.list| > 0 ==> Step(s, InitializeCall) == Outcome(s, None)
  {
  }

  /** A successful page moves the cursor by one, so the next request skips
      exactly the items asked for so far. */
  lemma NextRequestAfterSuccess(s: Store, items: seq<Recipe>, total: int)
    requires Inv(s) && !s.loading && !s.allLoaded
    ensures var asked := LoadMore(s);
            var answered := Step(asked.store, Deliver(Ok(items, total))).store;
            && asked.request == Some(Request(s.page * PageSize, PageSize))
            && answered.page == s.page + 1
            && answered.list == s.list + items
            && (!answered.allLoaded ==> LoadMore(answered).request == Some(Request((s.page + 1) * PageSize, PageSize)))
  {
  }

  // ---------------------------------------------------------------------
  // A full paging run

  /** `n` placeholder recipes. */
  function Batch(n: nat): (b: seq<Recipe>)
    ensures |b| == n
  {
    seq(n, i => Recipe(i, "", "Easy", []))
  }

  /** Running `e` then `rest` is one step followed by the run of `rest`. */
  lemma RunCons(s: Store, e: Event, rest: seq<Event>)
    ensures var o := Step(s, e);
            var t := Run(o.store, rest);
            Run(s, [e] + rest) == Trace(t.store, (if o.request.Some? then [o.request.value] else []) + t.requests)
  {
    assert ([e] + rest)[0] == e;
    assert ([e] + rest)[1..] == rest;
  }

  /** Total 100, pages of 30/30/30/10: complete after four answers, with
      the four requests at skips 0, 30, 60 and 90, and a fifth load call
      issues nothing. */
  lemma ScenarioHundred()
    ensures var t := Run(Initial(), [
              InitializeCall, Deliver(Ok(Batch(30), 100)),
              LoadMoreCall, Deliver(Ok(Batch(30), 100)),
              LoadMoreCall, Deliver(Ok(Batch(30), 100)),
              LoadMoreCall, Deliver(Ok(Batch(10), 100)),
              LoadMoreCall]);
            && t.store.allLoaded
            && |t.store.list| == 100
            && t.store.notifications == 4
            && t.requests == [Request(0, 30), Request(30, 30), Request(60, 30), Request(90, 30)]
  {
    var full := Deliver(Ok(Batch(30), 100));
    var last := Deliver(Ok(Batch(10), 100));
    var s0 := Initial();
    var o1 := Step(s0, InitializeCall);
    assert o1.request == Some(Request(0, 30));
    var s1 := Step(o1.store, full).store;
    assert |s1.list| == 30 && !s1.allLoaded && s1.page == 1 && s1.notifications == 1;
    var o2 := Step(s1, LoadMoreCall);
    assert o2.request == Some(Request(30, 30));
    var s2 := Step(o2.store, full).store;
    assert |s2.list| == 60 && !s2.allLoaded && s2.page == 2 && s2.notifications == 2;
    var o3 := Step(s2, LoadMoreCall);
    assert o3.request == Some(Request(60, 30));
    var s3 := Step(o3.store, full).store;
    assert |s3.list| == 90 && !s3.allLoaded && s3.page == 3 && s3.notifications == 3;
    var o4 := Step(s3, LoadMoreCall);
    assert o4.request == Some(Request(90, 30));
    var s4 := Step(o4.store, last).store;
    assert |s4.list| == 100 && s4.allLoaded && s4.notifications == 4;
    var o5 := Step(s4, LoadMoreCall);
    assert o5 == Outcome(s4, None);

    var e9: seq<Event> := [LoadMoreCall];
    var e8 := [last] + e9;
    var e7 := [LoadMoreCall] + e8;
    var e6 := [full] + e7;
    var e5 := [LoadMoreCall] + e6;
    var e4 := [full] + e5;
    var e3 := [LoadMoreCall] + e4;
    var e2 := [full] + e3;
    var e1 := [InitializeCall] + e2;
    RunCons(s4, LoadMoreCall, []);
    assert Run(s4, e9) == Trace(s4, []);
    RunCons(o4.store, last, e9);
    RunCons(s3, LoadMoreCall, e8);
    assert Run(s3, e7) == Trace(s4, [Request(90, 30)]);
    RunCons(o3.store, full, e7);
    RunCons(s2, LoadMoreCall, e6);
    assert Run(s2, e5) == Trace(s4, [Request(60, 30), Request(90, 30)]);
    RunCons(o2.store, full, e5);
    RunCons(s1, LoadMoreCall, e4);
    assert Run(s1, e3) == Trace(s4, [Request(30, 30), Request(60, 30), Request(90, 30)]);
    RunCons(o1.store, full, e3);
    RunCons(s0, InitializeCall, e2);
    assert Run(s0, e1) == Trace(s4, [Request(0, 30), Request(30, 30), Request(60, 30), Request(90, 30)]);
    assert e1 == [InitializeCall, full, LoadMoreCall, full, LoadMoreCall, full, LoadMoreCall, last, LoadMoreCall];
  }

  // ---------------------------------------------------------------------
  // The service's own filters (they write `recepList` and return it)

  predicate LowerIs(r: Recipe, level: string)
  {
    ToLower(r.difficulty) == level
  }

  /** `filterRecipesByDifficulty`: "all" gives the whole list, "easy" the
      easy recipes, and every other selector the medium recipes. */
  function FilterByDifficulty(s: Store, difficulty: string): (r: Store)
    ensures r == s.(recepList := r.recepList)
    ensures IsSubsequence(r.recepList, s.list)
    ensures difficulty == "all" ==> r.recepList == s.list
    ensures difficulty != "all" ==>
              var level := if difficulty == "easy" then "easy" else "medium";
              && (forall i | 0 <= i < |r.recepList| :: LowerIs(r.recepList[i], level))
              && (forall x :: multiset(r.recepList)[x] == if LowerIs(x, level) then multiset(s.list)[x] else 0)
  {
    if difficulty == "all" then
      SubsequenceReflexive(s.list);
      s.(recepList := s.list)
    else if difficulty == "easy" then s.(recepList := Filter(s.list, x => LowerIs(x, "easy")))
    else s.(recepList := Filter(s.list, x => LowerIs(x, "medium")))
  }

  /** The tag a known meal-type selector stands for. */
  function MealTag(mealType: string): (tag: Option<string>)
    ensures tag.Some? <==> mealType in {"breakfast", "lunch", "dinner"}
    ensures tag.Some? ==> tag.value == Capitalise(mealType)
  {
    if mealType == "breakfast" then Some("Breakfast")
    else if mealType == "dinner" then Some("Dinner")
    else if mealType == "lunch" then Some("Lunch")
    else None
  }

  /** `filterRecipesByMealType`: a known meal type keeps the recipes tagged
      with its capitalised name; any other value leaves the previous
      `recepList` as it was. */
  function FilterByMealType(s: Store, mealType: string): (r: Store)
    ensures r == s.(recepList := r.recepList)
    ensures MealTag(mealType).None? ==> r == s
    ensures MealTag(mealType).Some? ==>
              var tag := MealTag(mealType).value;
              && IsSubsequence(r.recepList, s.list)
              && (forall i | 0 <= i < |r.recepList| :: HasTag(r.recepList[i], tag))
              && (forall x :: multiset(r.recepList)[x] == if HasTag(x, tag) then multiset(s.list)[x] else 0)
  {
    match MealTag(mealType)
    case Some(tag) => s.(recepList := Filter(s.list, (x: Recipe) => HasTag(x, tag)))
    case None => s
  }

  /** A hard selector yields the medium recipes: a list holding one hard
      and one medium recipe is filtered down to the medium one. */
  lemma HardSelectsMedium()
    ensures var hard := Recipe(1, "a", "Hard", ["Dinner"]);
            var medium := Recipe(2, "b", "Medium", ["Dinner"]);
            var s := Initial().(list := [hard, medium]);
            FilterByDifficulty(s, "hard").recepList == [medium]
  {
    var hard := Recipe(1, "a", "Hard", ["Dinner"]);
    var medium := Recipe(2, "b", "Medium", ["Dinner"]);
    assert ToLower("Hard") == "hard";
    assert ToLower("Medium") == "medium";
    assert !LowerIs(hard, "medium") && LowerIs(medium, "medium");
  }
}
