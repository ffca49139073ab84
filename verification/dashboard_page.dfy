/**
 * The voter dashboard: turns the filter controls' strings into the service's
 * filter object, pages through the server-side result, keeps the loaded list
 * up to date after a deletion and counts the loaded rows by interaction.
 *
 * The page fetch (`fetchEleitoresPage`) is an outside collaborator: the
 * handlers receive it as a function from request to response.
 */
module DashboardPage {
  import opened Wrappers
  import opened Seqs
  import opened Paging
  import opened EleitoresService

  /** The filter controls' state: every field a string, '' meaning "no filter". */
  datatype UiFilters = UiFilters(regiao: string, interacao: string, genero: string, cidade: string, search: string, religiao: string)

  const ClearedUiFilters := UiFilters("", "", "", "", "", "")

  datatype FilterKey = RegiaoKey | InteracaoKey | GeneroKey | CidadeKey | SearchKey | ReligiaoKey

  /** The values the interaction toggle emits: all, yes, no. */
  predicate IsToggleValue(s: string) {
    s == "" || s == "true" || s == "false"
  }

  function Get(ui: UiFilters, key: FilterKey): string {
    match key
    case RegiaoKey => ui.regiao
    case InteracaoKey => ui.interacao
    case GeneroKey => ui.genero
    case CidadeKey => ui.cidade
    case SearchKey => ui.search
    case ReligiaoKey => ui.religiao
  }

  /** `{ ...prev, [key]: value }` */
  function Set(ui: UiFilters, key: FilterKey, value: string): (r: UiFilters)
    ensures Get(r, key) == value
    ensures forall k :: k != key ==> Get(r, k) == Get(ui, k)
  {
    match key
    case RegiaoKey => ui.(regiao := value)
    case InteracaoKey => ui.(interacao := value)
    case GeneroKey => ui.(genero := value)
    case CidadeKey => ui.(cidade := value)
    case SearchKey => ui.(search := value)
    case ReligiaoKey => ui.(religiao := value)
  }

  /** `s || undefined` */
  function OrUndefined(s: string): Option<string> {
    if s == "" then None else Some(s)
  }

  /** `buildServiceFilters`: empty strings become undefined; the interaction toggle becomes undefined, `true` or `false`. */
  function BuildServiceFilters(ui: UiFilters): (f: SearchFilters)
    ensures f.regiao.Some? <==> ui.regiao != ""
    ensures f.cidade.Some? <==> ui.cidade != ""
    ensures f.genero.Some? <==> ui.genero != ""
    ensures f.religiao.Some? <==> ui.religiao != ""
    ensures f.search.Some? <==> ui.search != ""
    ensures f.regiao.Some? ==> f.regiao.value == ui.regiao
    ensures f.cidade.Some? ==> f.cidade.value == ui.cidade
    ensures f.genero.Some? ==> f.genero.value == ui.genero
    ensures f.religiao.Some? ==> f.religiao.value == ui.religiao
    ensures f.search.Some? ==> f.search.value == ui.search
    ensures f.interacao.None? <==> ui.interacao == ""
    ensures f.interacao == Some(true) <==> ui.interacao == "true"
    ensures f.interacao == Some(false) <==> ui.interacao != "" && ui.interacao != "true"
  {
    SearchFilters(
      search := OrUndefined(ui.search),
      regiao := OrUndefined(ui.regiao),
      cidade := OrUndefined(ui.cidade),
      genero := OrUndefined(ui.genero),
      religiao := OrUndefined(ui.religiao),
      interacao := if ui.interacao == "" then None else Some(ui.interacao == "true"))
  }

  /** Which rows the controls ask for, read straight off the UI strings. */
  predicate UiSelects(e: Eleitor, ui: UiFilters) {
    (ui.regiao != "" ==> e.regiao == ui.regiao)
    && (ui.cidade != "" ==> Text.ContainsIgnoringCase(e.cidade, ui.cidade))
    && (ui.genero != "" ==> e.genero == ui.genero)
    && (ui.religiao != "" ==> e.religiao == Some(ui.religiao))
    && (ui.interacao == "true" ==> e.interacao)
    && (ui.interacao == "false" ==> !e.interacao)
    && (ui.search != "" ==> SearchHit(e, ui.search))
  }

  /** For every value the toggle can emit, the service filter built from the controls selects exactly the rows the controls describe. */
  lemma {:induction false} BuildServiceFiltersSelects(e: Eleitor, ui: UiFilters)
    requires IsToggleValue(ui.interacao)
    ensures MatchesFilters(e, BuildServiceFilters(ui)) <==> UiSelects(e, ui)
  {
    var f := BuildServiceFilters(ui);
    assert Present(f.regiao) <==> ui.regiao != "";
    assert Present(f.cidade) <==> ui.cidade != "";
    assert Present(f.genero) <==> ui.genero != "";
    assert Present(f.religiao) <==> ui.religiao != "";
    assert Present(f.search) <==> ui.search != "";
  }

  /** Cleared controls ask the service for no constraint at all. */
  lemma ClearedFiltersAddNoConstraint()
    ensures NoFilters(BuildServiceFilters(ClearedUiFilters))
    ensures RequestedConstraints(BuildServiceFilters(ClearedUiFilters)) == []
  {
    RequestedConstraintsCount(BuildServiceFilters(ClearedUiFilters));
  }

  /** `Math.max(1, Math.ceil(totalCount / pageSize))`: the page count shown, never below 1. */
  function DisplayedTotalPages(totalCount: nat, pageSize: nat): (pages: nat)
    requires pageSize > 0
    ensures pages >= 1
    ensures totalCount <= pages * pageSize
    ensures pages > 1 ==> (pages - 1) * pageSize < totalCount
  {
    Max(1, CeilDiv(totalCount, pageSize))
  }

  /** The stat cards computed from the loaded page (`loadedStats`, dates left out). */
  datatype LoadedStats = LoadedStats(total: nat, withInteraction: nat, withoutInteraction: nat)

  predicate HasInteraction(e: Eleitor) { e.interacao }

  predicate LacksInteraction(e: Eleitor) { !e.interacao }

  function ComputeLoadedStats(es: seq<Eleitor>): (s: LoadedStats)
    ensures s.total == |es|
    ensures s.withInteraction + s.withoutInteraction == s.total
    ensures s.withInteraction == |Filter(es, HasInteraction)|
    ensures s.withoutInteraction == |Filter(es, LacksInteraction)|
  {
    FilterComplement(es, HasInteraction, LacksInteraction);
    LoadedStats(|es|, |Filter(es, HasInteraction)|, |Filter(es, LacksInteraction)|)
  }

  /** `prev.filter(e => e.id !== id)`: a row without an id is never removed. */
  function WithoutId(es: seq<Eleitor>, id: string): (r: seq<Eleitor>)
    ensures IsSubsequence(r, es)
    ensures forall i :: 0 <= i < |r| ==> r[i].id != Some(id)
    ensures forall e :: multiset(r)[e] == if e.id == Some(id) then 0 else multiset(es)[e]
    ensures (forall i :: 0 <= i < |es| ==> es[i].id != Some(id)) ==> r == es
  {
    var keep := (e: Eleitor) => e.id != Some(id);
    FilterIsSubsequence(es, keep);
    if forall i :: 0 <= i < |es| ==> es[i].id != Some(id) then
      FilterKeepsAll(es, keep);
      Filter(es, keep)
    else
      Filter(es, keep)
  }

  /** A page request to the store collaborator. */
  datatype PageRequest = PageRequest(page: int, pageSize: int, filters: SearchFilters)

  datatype StoreError = StoreError(message: string)

  /** `{ data, count, error }` as the page fetch resolves. */
  datatype PageResponse = PageResponse(data: seq<Eleitor>, count: nat, error: Option<StoreError>)

  const PageSize := 50

  const LoadErrorMessage := "Erro ao buscar eleitores"

  /** The dashboard's state: loaded rows, controls, current page and the last count the store reported. */
  class Dashboard {
    var eleitores: seq<Eleitor>
    var filters: UiFilters
    var currentPage: int
    const pageSize: int
    var totalCount: nat
    var error: Option<string>
    var errorDetails: Option<string>
    var loading: bool
    /** The page requests issued so far, oldest first. */
    ghost var requests: seq<PageRequest>

    ghost predicate Valid()
      reads this
    {
      currentPage >= 1 && pageSize == PageSize
    }

    function TotalPages(): (pages: nat)
      reads this
      requires Valid()
      ensures pages >= 1
    {
      DisplayedTotalPages(totalCount, pageSize)
    }

    /** The request the handlers send for `page` with the current controls. */
    function RequestFor(page: int): PageRequest
      reads this
    {
      PageRequest(page, pageSize, BuildServiceFilters(filters))
    }

    /** What a finished first-page load shows for `resp`: on error the fixed message and the store's, with the rows and count it had before (`rows`, `count`); otherwise the response's rows and count. */
    ghost predicate ShowsFirstPage(resp: PageResponse, rows: seq<Eleitor>, count: nat)
      reads this
    {
      !loading
      && if resp.error.Some? then
        error == Some(LoadErrorMessage) && errorDetails == Some(resp.error.value.message)
        && eleitores == rows && totalCount == count
      else
        error == None && errorDetails == None && eleitores == resp.data && totalCount == resp.count
    }

    /** Mounting the page: initial state, then the first-page load. */
    constructor (respond: PageRequest -> PageResponse)
      ensures Valid() && !loading
      ensures filters == ClearedUiFilters && currentPage == 1
      ensures requests == [PageRequest(1, PageSize, BuildServiceFilters(ClearedUiFilters))]
      ensures ShowsFirstPage(respond(RequestFor(1)), [], 0)
    {
      eleitores := [];
      filters := ClearedUiFilters;
      currentPage := 1;
      pageSize := PageSize;
      totalCount := 0;
      error := None;
      errorDetails := None;
      loading := false;
      requests := [];
      new;
      LoadFirstPage(respond);
    }

    /** `loadFirstPage`: back to page 1 and fetch it; on error keep the rows and the count and report the message. */
    method LoadFirstPage(respond: PageRequest -> PageResponse)
      requires Valid()
      modifies this
      ensures Valid() && !loading
      ensures currentPage == 1
      ensures filters == old(filters)
      ensures requests == old(requests) + [RequestFor(1)]
      ensures ShowsFirstPage(respond(RequestFor(1)), old(eleitores), old(totalCount))
    {
      loading := true;
      error := None;
      errorDetails := None;
      currentPage := 1;
      var request := RequestFor(1);
      requests := requests + [request];
      var resp := respond(request);
      if resp.error.Some? {
        error := Some(LoadErrorMessage);
        errorDetails := Some(resp.error.value.message);
      } else {
        eleitores := resp.data;
        totalCount := resp.count;
      }
      loading := false;
    }

    /** `handleFilterChange` with the effect that follows it: the page reloads from page 1 when a control's value actually changed. */
    method ChangeFilter(key: FilterKey, value: string, respond: PageRequest -> PageResponse)
      requires Valid()
      modifies this
      ensures Valid()
      ensures filters == Set(old(filters), key, value)
      ensures Get(old(filters), key) != value ==>
        currentPage == 1 && requests == old(requests) + [RequestFor(1)]
        && ShowsFirstPage(respond(RequestFor(1)), old(eleitores), old(totalCount))
      ensures Get(old(filters), key) == value ==> unchanged(this)
    {
      var updated := Set(filters, key, value);
      if updated != filters {
        filters := updated;
        LoadFirstPage(respond);
      }
    }

    /** `clearFilters`: every control back to ''; reloads from page 1 when something was set. */
    method ClearFilters(respond: PageRequest -> PageResponse)
      requires Valid()
      modifies this
      ensures Valid()
      ensures filters == ClearedUiFilters
      ensures old(filters) != ClearedUiFilters ==>
        currentPage == 1 && requests == old(requests) + [RequestFor(1)]
        && ShowsFirstPage(respond(RequestFor(1)), old(eleitores), old(totalCount))
      ensures old(filters) == ClearedUiFilters ==> unchanged(this)
    {
      if filters != ClearedUiFilters {
        filters := ClearedUiFilters;
        LoadFirstPage(respond);
      }
    }

    /** "Anterior": nothing while loading or on page 1; otherwise fetch and show the previous page. */
    method PreviousPage(respond: PageRequest -> PageResponse)
      requires Valid()
      modifies this
      ensures Valid()
      ensures old(loading) || old(currentPage) == 1 ==> unchanged(this)
      ensures !old(loading) && old(currentPage) != 1 ==>
        var request := PageRequest(old(currentPage) - 1, pageSize, BuildServiceFilters(filters));
        currentPage == old(currentPage) - 1 && !loading && filters == old(filters)
        && requests == old(requests) + [request]
        && eleitores == respond(request).data && totalCount == respond(request).count
        && error == old(error) && errorDetails == old(errorDetails)
    {
      if loading || currentPage == 1 {
        return;
      }
      loading := true;
      var next := currentPage - 1;
      var request := RequestFor(next);
      requests := requests + [request];
      var resp := respond(request);
      eleitores := resp.data;
      totalCount := resp.count;
      currentPage := next;
      loading := false;
    }

    /** "Próximo": nothing while loading or on the last displayed page; otherwise fetch and show the next page. */
    method NextPage(respond: PageRequest -> PageResponse)
      requires Valid()
      modifies this
      ensures Valid()
      ensures old(loading) || old(currentPage) >= old(TotalPages()) ==> unchanged(this)
      ensures !old(loading) && old(currentPage) < old(TotalPages()) ==>
        var request := PageRequest(old(currentPage) + 1, pageSize, BuildServiceFilters(filters));
        currentPage == old(currentPage) + 1 && !loading && filters == old(filters)
        && requests == old(requests) + [request]
        && eleitores == respond(request).data && totalCount == respond(request).count
        && error == old(error) && errorDetails == old(errorDetails)
      ensures currentPage <= old(TotalPages()) || currentPage == old(currentPage)
    {
      var totalPages := TotalPages();
      if loading || currentPage >= totalPages {
        return;
      }
      loading := true;
      var next := currentPage + 1;
      var request := RequestFor(next);
      requests := requests + [request];
      var resp := respond(request);
      eleitores := resp.data;
      totalCount := resp.count;
      currentPage := next;
      loading := false;
    }

    /** `handleEleitorDeleted`: drop the deleted row from the loaded list. */
    method EleitorDeleted(id: string)
      modifies this`eleitores
      ensures eleitores == WithoutId(old(eleitores), id)
    {
      eleitores := WithoutId(eleitores, id);
    }

    function Stats(): (s: LoadedStats)
      reads this
      ensures s.withInteraction + s.withoutInteraction == |eleitores|
    {
      ComputeLoadedStats(eleitores)
    }
  }
}
