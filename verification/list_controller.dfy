/**
 * The paginated list controller every list screen instantiates: the `currentPage`, `per_page`,
 * `total_count`, `searchQuery`, records and `isLoading` state fields, the handlers that change
 * them, and the effect that issues a listing request whenever page, page size or search changes.
 *
 * Each listing request is recorded in `issued` with the parameters it was sent with; its
 * completion is a separate atomic event carrying the outcome.
 */
module ListController {
  import opened Wrappers
  import opened Paging
  import opened Envelope

  /** The parameters of one listing request: `{ page, per_page, searching }`. */
  datatype Query = Query(page: nat, perPage: nat, searching: string)

  /** How a screen instantiates the controller. */
  datatype Config = Config(
    keys: Keys,              // where the records and pagination block are in the response
    initiallyLoading: bool,  // the initial value of `isLoading`
    raisesLoading: bool)     // whether the fetch function starts with `setIsLoading(true)`

  /** The completion of a listing request: a response, or a rejected promise. */
  datatype FetchOutcome<T> = Failed | Responded(response: Response<T>)

  /** The list state of one screen, as a value. */
  datatype ListView<T> = ListView(
    page: nat,
    perPage: nat,
    total: Option<nat>,
    search: string,
    items: seq<T>,
    loading: bool,
    issued: seq<Query>)
  {
    /** The parameters a listing request issued now would carry. */
    function Current(): Query
    {
      Query(page, perPage, search)
    }

    /**
     * Page and page size stay positive, and the most recently issued request carries the
     * current page, page size and search: the effect never lets the state drift from the last
     * request.
     */
    predicate Valid()
    {
      page >= 1 && perPage >= 1 && |issued| > 0 && issued[|issued| - 1] == Current()
    }
  }

  /** A call of the fetch function: the request goes out with the current parameters. */
  function FetchStarted<T>(cfg: Config, v: ListView<T>): (r: ListView<T>)
    ensures r.issued == v.issued + [v.Current()]
    ensures r.loading == (v.loading || cfg.raisesLoading)
    ensures r == v.(issued := r.issued, loading := r.loading)
    ensures v.page >= 1 && v.perPage >= 1 ==> r.Valid()
  {
    v.(issued := v.issued + [v.Current()], loading := v.loading || cfg.raisesLoading)
  }

  /** The effect on `[currentPage, per_page, searchQuery]`: it fires only if one of them changed. */
  function Requery<T>(cfg: Config, deps: Query, after: ListView<T>): (r: ListView<T>)
    ensures r.Current() == after.Current()
    ensures r.issued == after.issued + (if after.Current() != deps then [after.Current()] else [])
    ensures r.loading == (after.loading || (cfg.raisesLoading && after.Current() != deps))
    ensures r == after.(issued := r.issued, loading := r.loading)
  {
    if after.Current() != deps then FetchStarted(cfg, after) else after
  }

  /** The state right after mounting: defaults, then the effect's first fetch. */
  function Mounted<T>(cfg: Config): (v: ListView<T>)
    ensures v.Valid()
    ensures v.Current() == Query(1, 10, "") && v.issued == [v.Current()]
    ensures v.total == None && v.items == []
    ensures v.loading == (cfg.initiallyLoading || cfg.raisesLoading)
  {
    FetchStarted(cfg, ListView(1, 10, None, "", [], cfg.initiallyLoading, []))
  }

  /** `handlePageChange(page)`. */
  function PageChanged<T>(cfg: Config, v: ListView<T>, page: int): (r: ListView<T>)
    requires v.Valid()
    ensures r.Valid()
    ensures Accepts(page, v.total, v.perPage) ==> r.page == page
    ensures !Accepts(page, v.total, v.perPage) ==> r == v
    ensures r.(page := v.page, issued := v.issued, loading := v.loading) == v
    ensures r.issued == v.issued + (if r.page != v.page then [r.Current()] else [])
    ensures r.loading == (v.loading || (cfg.raisesLoading && r.page != v.page))
  {
    Requery(cfg, v.Current(), if Accepts(page, v.total, v.perPage) then v.(page := page) else v)
  }

  /** `handlePerPageChange(n)`: the new page size, and back to page 1. */
  function PerPageChanged<T>(cfg: Config, v: ListView<T>, n: nat): (r: ListView<T>)
    requires v.Valid() && IsPageSizeOption(n)
    ensures r.Valid()
    ensures r.page == 1 && r.perPage == n
    ensures r.(page := v.page, perPage := v.perPage, issued := v.issued, loading := v.loading) == v
    ensures r.issued == v.issued + (if r.Current() != v.Current() then [r.Current()] else [])
    ensures r.loading == (v.loading || (cfg.raisesLoading && r.Current() != v.Current()))
  {
    Requery(cfg, v.Current(), v.(page := 1, perPage := n))
  }

  /** Typing in the search box: only the search changes; the page is not reset. */
  function SearchEdited<T>(cfg: Config, v: ListView<T>, s: string): (r: ListView<T>)
    requires v.Valid()
    ensures r.Valid()
    ensures r.search == s && r.page == v.page && r.perPage == v.perPage
    ensures r.(search := v.search, issued := v.issued, loading := v.loading) == v
    ensures r.issued == v.issued + (if s != v.search then [r.Current()] else [])
    ensures r.loading == (v.loading || (cfg.raisesLoading && s != v.search))
  {
    Requery(cfg, v.Current(), v.(search := s))
  }

  /**
   * The completion of the fetch function. A response's records are adopted; when it also has a
   * pagination block, the total, page and page size are adopted from it, and a changed page or
   * page size fires the effect again. The loading flag is cleared in every case before that.
   */
  function FetchCompleted<T>(cfg: Config, v: ListView<T>, outcome: FetchOutcome<T>): (r: ListView<T>)
    requires v.Valid()
    ensures r.Valid()
    ensures outcome.Failed? ==> r == v.(loading := false)
    ensures outcome.Responded? ==> r.items == ItemsOf(outcome.response, cfg.keys.items)
    ensures outcome.Responded? && cfg.keys.pagination !in outcome.response.objects ==>
      r == v.(items := r.items, loading := false)
    ensures outcome.Responded? && cfg.keys.pagination in outcome.response.objects ==>
      var block := outcome.response.objects[cfg.keys.pagination];
      && r.total == Some(Or(block, "total_count", 0))
      && r.page == Or(block, "page", 1)
      && r.perPage == Or(block, "per_page", 10)
    ensures r.search == v.search
    ensures r.issued == v.issued + (if r.Current() != v.Current() then [r.Current()] else [])
    ensures r.loading == (cfg.raisesLoading && r.Current() != v.Current())
  {
    match outcome
    case Failed => v.(loading := false)
    case Responded(response) =>
      var adopted := Read(response, cfg.keys);
      var withItems := v.(items := adopted.items, loading := false);
      match adopted.pagination
      case None => withItems
      case Some(p) =>
        Requery(cfg, v.Current(), withItems.(total := Some(p.total), page := p.page, perPage := p.perPage))
  }

  /**
   * When the server answers with the page and page size that were asked for, the effect does
   * not fire again and loading ends.
   */
  lemma EchoedAnswerSettles<T>(cfg: Config, v: ListView<T>, resp: Response<T>)
    requires v.Valid()
    requires cfg.keys.pagination in resp.objects
    requires var block := resp.objects[cfg.keys.pagination];
      "page" in block && block["page"] == v.page && "per_page" in block && block["per_page"] == v.perPage
    ensures var r := FetchCompleted(cfg, v, Responded(resp));
      && r.issued == v.issued && !r.loading && r.Current() == v.Current()
      && r.items == ItemsOf(resp, cfg.keys.items)
      && r.total == Some(Or(resp.objects[cfg.keys.pagination], "total_count", 0))
  {
  }

  /** When the total is still unknown or zero, every page change leaves the state as it was. */
  lemma NoPageChangeWithoutRecords<T>(cfg: Config, v: ListView<T>, page: int)
    requires v.Valid() && (v.total == None || v.total == Some(0))
    ensures PageChanged(cfg, v, page) == v
  {
    NoPageAcceptedWithoutRecords(page, v.total, v.perPage);
  }

  /** Every page the pager offers is taken, and a request for it goes out. */
  lemma PagerPageIsTaken<T>(cfg: Config, v: ListView<T>, page: nat)
    requires v.Valid() && v.total.Some?
    requires 1 <= page <= PageCount(v.total.value, v.perPage) && page != v.page
    ensures var r := PageChanged(cfg, v, page);
      r.page == page && r.issued == v.issued + [Query(page, v.perPage, v.search)]
  {
    PagerPagesAccepted(v.total.value, v.perPage, page);
  }

  /** One event of a screen session: a user action on the list, or a request's completion. */
  datatype Event<T> =
    | PageRequested(page: int)
    | PerPageChosen(perPage: nat)
    | SearchTyped(text: string)
    | FetchDone(outcome: FetchOutcome<T>)

  /** The page size selector only offers its four options. */
  predicate Selectable<T>(e: Event<T>)
  {
    e.PerPageChosen? ==> IsPageSizeOption(e.perPage)
  }

  /** The transition of one event; each one keeps the list valid and issues at most one request. */
  function Step<T>(cfg: Config, v: ListView<T>, e: Event<T>): (r: ListView<T>)
    requires v.Valid() && Selectable(e)
    ensures r.Valid()
    ensures v.issued <= r.issued && |r.issued| <= |v.issued| + 1
  {
    match e
    case PageRequested(p) => PageChanged(cfg, v, p)
    case PerPageChosen(n) => PerPageChanged(cfg, v, n)
    case SearchTyped(s) => SearchEdited(cfg, v, s)
    case FetchDone(o) => FetchCompleted(cfg, v, o)
  }

  /**
   * A whole session: after any sequence of events the list is still valid (positive page and
   * page size, last request matching the current query), earlier requests are never withdrawn,
   * and no event issues more than one request.
   */
  function Replay<T>(cfg: Config, v: ListView<T>, events: seq<Event<T>>): (r: ListView<T>)
    requires v.Valid() && forall i :: 0 <= i < |events| ==> Selectable(events[i])
    ensures r.Valid()
    ensures v.issued <= r.issued && |r.issued| <= |v.issued| + |events|
    decreases |events|
  {
    if events == [] then v
    else Replay(cfg, Step(cfg, v, events[0]), events[1..])
  }

  /**
   * Until the first response arrives the total is unknown, so whatever the user does the page
   * stays 1: page changes are rejected and a page size change goes back to 1.
   */
  lemma {:induction false} PageStaysOneUntilFirstResponse<T>(cfg: Config, v: ListView<T>, events: seq<Event<T>>)
    requires v.Valid() && v.page == 1 && v.total == None
    requires forall i :: 0 <= i < |events| ==> Selectable(events[i]) && !events[i].FetchDone?
    ensures Replay(cfg, v, events).page == 1 && Replay(cfg, v, events).total == None
    decreases |events|
  {
    if events != [] {
      PageStaysOneUntilFirstResponse(cfg, Step(cfg, v, events[0]), events[1..]);
    }
  }

  /** Only typing changes the search: no page, page size or response event touches it. */
  lemma {:induction false} SearchOnlyFromTyping<T>(cfg: Config, v: ListView<T>, events: seq<Event<T>>)
    requires v.Valid()
    requires forall i :: 0 <= i < |events| ==> Selectable(events[i]) && !events[i].SearchTyped?
    ensures Replay(cfg, v, events).search == v.search
    decreases |events|
  {
    if events != [] {
      SearchOnlyFromTyping(cfg, Step(cfg, v, events[0]), events[1..]);
    }
  }

  /** The list controller of one screen, holding its state in fields. */
  class ListState<T> {
    const cfg: Config
    var page: nat
    var perPage: nat
    var total: Option<nat>
    var search: string
    var items: seq<T>
    var loading: bool
    var issued: seq<Query>

    function View(): ListView<T>
      reads this
    {
      ListView(page, perPage, total, search, items, loading, issued)
    }

    predicate Valid()
      reads this
    {
      View().Valid()
    }

    /** Mounting the screen: the initial state values, then the effect's first fetch. */
    constructor (cfg: Config)
      ensures this.cfg == cfg && View() == Mounted(cfg)
    {
      this.cfg := cfg;
      page, perPage, total, search := 1, 10, None, "";
      items, loading, issued := [], cfg.initiallyLoading, [];
      new;
      BeginFetch();
    }

    /** A call of the screen's fetch function, up to its first `await`. */
    method BeginFetch()
      modifies this
      ensures View() == FetchStarted(cfg, old(View()))
    {
      if cfg.raisesLoading {
        loading := true;
      }
      issued := issued + [Query(page, perPage, search)];
    }

    /** The effect on `[currentPage, per_page, searchQuery]`, run after a handler's updates. */
    method RunEffect(deps: Query)
      modifies this
      ensures View() == Requery(cfg, deps, old(View()))
    {
      if Query(page, perPage, search) != deps {
        BeginFetch();
      }
    }

    method SetPage(p: int)
      requires Valid()
      modifies this
      ensures View() == PageChanged(cfg, old(View()), p)
    {
      var deps := Query(page, perPage, search);
      if p > 0 && total.Some? && p <= PageCount(total.value, perPage) {
        page := p;
      }
      RunEffect(deps);
    }

    method SetPerPage(n: nat)
      requires Valid() && IsPageSizeOption(n)
      modifies this
      ensures View() == PerPageChanged(cfg, old(View()), n)
    {
      var deps := Query(page, perPage, search);
      perPage := n;
      page := 1;
      RunEffect(deps);
    }

    method SetSearch(s: string)
      requires Valid()
      modifies this
      ensures View() == SearchEdited(cfg, old(View()), s)
    {
      var deps := Query(page, perPage, search);
      search := s;
      RunEffect(deps);
    }

    /** The part of the fetch function after its `await`, with the request's outcome. */
    method CompleteFetch(outcome: FetchOutcome<T>)
      requires Valid()
      modifies this
      ensures View() == FetchCompleted(cfg, old(View()), outcome)
    {
      var deps := Query(page, perPage, search);
      match outcome {
        case Failed =>
        case Responded(response) =>
          items := ItemsOf(response, cfg.keys.items);
          if cfg.keys.pagination in response.objects {
            var block := response.objects[cfg.keys.pagination];
            total := Some(Or(block, "total_count", 0));
            page := Or(block, "page", 1);
            perPage := Or(block, "per_page", 10);
          }
      }
      loading := false;
      RunEffect(deps);
    }

    method SetLoading(b: bool)
      modifies this
      ensures View() == old(View()).(loading := b)
    {
      loading := b;
    }
  }
}
