/** The footer: a vertically scrolling copy of the canonical list, kept in
    step with the service by the load notification and a polling tick, and
    paging on a fractional scroll trigger with no guard of its own. */
module Footer {
  import opened Recipes
  import opened Paging
  import opened ScrollTriggers

  /** The footer's local copy (`allRecipes`). */
  datatype Footer = Footer(allRecipes: seq<Recipe>)

  datatype FooterOutcome = FooterOutcome(footer: Footer, store: Store, request: Option<Request>)

  /** `updateRecipes`: replace the local copy by an element-wise copy of the
      canonical list. */
  function UpdateRecipes(s: Store): (f: Footer)
    ensures |f.allRecipes| == |s.list|
    ensures forall i | 0 <= i < |s.list| :: f.allRecipes[i] == s.list[i]
  {
    Footer(s.list)
  }

  /** `ngOnInit`: initialise the service only when its list is empty, then
      the replayed notification and the initial update copy the list. */
  function OnInit(s: Store): (r: FooterOutcome)
    ensures r.footer.allRecipes == r.store.list
    ensures |s.list| > 0 ==> r == FooterOutcome(Footer(s.list), s, None)
  {
    var init := if |s.list| == 0 then Initialize(s) else Outcome(s, None);
    FooterOutcome(UpdateRecipes(init.store), init.store, init.request)
  }

  /** The footer's own emptiness check adds nothing: the service's
      `initializeRecipes` already does nothing on a nonempty list. */
  lemma OnInitGuardRedundant(s: Store)
    ensures OnInit(s).store == Initialize(s).store
    ensures OnInit(s).request == Initialize(s).request
  {
  }

  /** The polling tick: refresh only when the service has data and the
      local copy is still empty. A filled copy is left as it is. */
  function PollTick(f: Footer, s: Store): (r: Footer)
    ensures |f.allRecipes| > 0 ==> r == f
    ensures |f.allRecipes| == 0 ==> r.allRecipes == s.list
  {
    if |s.list| > 0 && |f.allRecipes| == 0 then UpdateRecipes(s) else f
  }

  /** A second tick on the same service state changes nothing. */
  lemma PollTickIdempotent(f: Footer, s: Store)
    ensures PollTick(PollTick(f, s), s) == PollTick(f, s)
  {
  }

  /** Polling never disagrees with the notification: once the copy was
      made by initialisation or by a notification, a tick leaves it as it
      is, and a tick on an empty copy yields what the notification would. */
  lemma PollTickAgreesWithNotification(f: Footer, s: Store)
    ensures PollTick(OnInit(s).footer, OnInit(s).store) == OnInit(s).footer
    ensures PollTick(OnRecordsChanged(f, s), s) == OnRecordsChanged(f, s)
    ensures |f.allRecipes| == 0 ==> PollTick(f, s) == OnRecordsChanged(f, s)
  {
  }

  /** The footer's subscription to the load notification. */
  function OnRecordsChanged(f: Footer, s: Store): (r: Footer)
    ensures r.allRecipes == s.list
  {
    UpdateRecipes(s)
  }

  /** `onScroll`: ask the service for more once 80% of the content has been
      seen. The footer has no in-flight flag of its own. */
  function OnScroll(f: Footer, s: Store, g: Axis): (r: FooterOutcome)
    ensures r.footer == f
    ensures !ReachedFraction(g) ==> r == FooterOutcome(f, s, None)
    ensures ReachedFraction(g) ==> r.store == LoadMore(s).store && r.request == LoadMore(s).request
  {
    if ReachedFraction(g) then
      var o := LoadMore(s);
      FooterOutcome(f, o.store, o.request)
    else FooterOutcome(f, s, None)
  }

  /** On a nonempty container the footer requests a page exactly when at
      least 80% of the height has been seen and the service is idle and not
      complete. */
  lemma OnScrollRequests(f: Footer, s: Store, g: Axis)
    requires g.extent > 0.0
    ensures OnScroll(f, s, g).request.Some? <==>
              g.offset + g.viewport >= SeenFraction * g.extent && !s.loading && !s.allLoaded
  {
    ReachedFractionNoDivision(g);
  }

  /** Scrolling again before the page arrives issues nothing more: with no
      guard in the footer, the service's in-flight flag alone prevents the
      duplicate request. */
  lemma RepeatedScrollOneFetch(f: Footer, s: Store, g1: Axis, g2: Axis)
    requires Inv(s)
    ensures var first := OnScroll(f, s, g1);
            var second := OnScroll(first.footer, first.store, g2);
            && !(first.request.Some? && second.request.Some?)
            && (first.request.Some? ==> second.store == first.store)
  {
  }

  /** Scrolled to the bottom (top 750, viewport 250, height 1000) with the
      service idle: the footer issues the request for the page at the
      cursor. */
  lemma ScenarioScrolledToBottom(f: Footer, s: Store)
    requires !s.loading && !s.allLoaded
    ensures OnScroll(f, s, Axis(750.0, 1000.0, 250.0)).request == Some(Request(s.page * PageSize, PageSize))
  {
  }

  /** After a successful page and its notification the footer shows the
      whole grown list, the new page at its end. */
  lemma FooterFollowsPages(f: Footer, s: Store, items: seq<Recipe>, total: int)
    requires Inv(s) && s.loading
    ensures var answered := Step(s, Deliver(Ok(items, total))).store;
            OnRecordsChanged(f, answered).allRecipes == s.list + items
  {
  }
}
