/**
 * The administrative users panel: filters an in-memory user list with five
 * controls, counts the result, and shows it ten users per page.
 */
module AdminUsersDashboard {
  import opened Text
  import opened Seqs
  import opened Paging
  import EleitoresService
  import opened Wrappers

  datatype User = User(
    id: string,
    regiao: string,
    bairro: string,
    cep: string,
    cidade: string,
    nome: string,
    email: string,
    escola: string,
    endereco: string,
    telefone: string,
    data_nascimento: string,
    cpf: string,
    instagram: string,
    facebook: string,
    tiktok: string,
    genero: string,
    religiao: string,
    profissao: string,
    observacoes: string,
    interacao: bool,
    created_at: string,
    updated_at: string)

  /** The five controls; '' means "no filter". */
  datatype AdminFilters = AdminFilters(regiao: string, interacao: string, genero: string, cidade: string, search: string)

  const ClearedFilters := AdminFilters("", "", "", "", "")

  datatype FilterKey = RegiaoKey | InteracaoKey | GeneroKey | CidadeKey | SearchKey

  const ItemsPerPage := 10

  /** `b.toString()` */
  function BoolText(b: bool): string {
    if b then "true" else "false"
  }

  predicate MatchesRegiao(u: User, f: AdminFilters) { f.regiao == "" || u.regiao == f.regiao }

  predicate MatchesInteracao(u: User, f: AdminFilters) { f.interacao == "" || BoolText(u.interacao) == f.interacao }

  predicate MatchesGenero(u: User, f: AdminFilters) { f.genero == "" || u.genero == f.genero }

  predicate MatchesCidade(u: User, f: AdminFilters) { f.cidade == "" || ContainsIgnoringCase(u.cidade, f.cidade) }

  /** Name and e-mail are searched ignoring case; the CPF is searched as typed, as a substring. */
  predicate MatchesSearch(u: User, f: AdminFilters) {
    f.search == ""
    || ContainsIgnoringCase(u.nome, f.search)
    || ContainsIgnoringCase(u.email, f.search)
    || Contains(u.cpf, f.search)
  }

  predicate UserMatches(u: User, f: AdminFilters) {
    MatchesRegiao(u, f) && MatchesInteracao(u, f) && MatchesGenero(u, f) && MatchesCidade(u, f) && MatchesSearch(u, f)
  }

  /** `filteredUsers`: the users meeting all five conditions, in their original order. */
  function FilteredUsers(users: seq<User>, f: AdminFilters): (r: seq<User>)
    ensures IsSubsequence(r, users)
    ensures forall i :: 0 <= i < |r| ==> UserMatches(r[i], f)
    ensures forall u :: multiset(r)[u] == if UserMatches(u, f) then multiset(users)[u] else 0
  {
    var keep := (u: User) => UserMatches(u, f);
    FilterIsSubsequence(users, keep);
    Filter(users, keep)
  }

  /** With every control empty nothing is filtered out. */
  lemma {:induction false} ClearedFiltersKeepEveryone(users: seq<User>)
    ensures FilteredUsers(users, ClearedFilters) == users
  {
    FilterKeepsAll(users, (u: User) => UserMatches(u, ClearedFilters));
  }

  /** With the interaction toggle set to 'true' or 'false', a user passes it exactly when its flag agrees. */
  lemma InteracaoToggle(u: User, f: AdminFilters)
    ensures f.interacao == "true" ==> (MatchesInteracao(u, f) <==> u.interacao)
    ensures f.interacao == "false" ==> (MatchesInteracao(u, f) <==> !u.interacao)
    ensures f.interacao != "" && f.interacao != "true" && f.interacao != "false" ==> !MatchesInteracao(u, f)
  {
  }

  /** The CPF search is a substring test: a fragment of the CPF finds the user, unlike the service's exact `cpf.eq`. */
  lemma {:induction false} CpfFragmentFindsUser(u: User, f: AdminFilters, i: nat)
    requires f.search != "" && i + |f.search| <= |u.cpf| && u.cpf[i..i + |f.search|] == f.search
    ensures MatchesSearch(u, f)
  {
    assert OccursAt(u.cpf, f.search, i);
  }

  /** The two searches differ on the CPF: typing '123' finds the admin user whose CPF starts with it, but not the voter with the same CPF, whose CPF must equal the term. */
  lemma {:induction false} CpfSearchesDiffer(u: User, e: EleitoresService.Eleitor)
    requires u.cpf == "123.456.789-00" && u.nome == "Maria" && u.email == "maria@email.com"
    requires e.cpf == Some("123.456.789-00") && e.nome == "Maria" && e.email == Some("maria@email.com")
    ensures MatchesSearch(u, ClearedFilters.(search := "123"))
    ensures !EleitoresService.SearchHit(e, "123")
  {
    CpfFragmentFindsUser(u, ClearedFilters.(search := "123"), 0);
    assert Lower("123") == "123";
    NoDigitOne(e.nome);
    NoDigitOne(e.email.value);
  }

  /** A text without the digit '1' does not contain '123', whatever the case. */
  lemma {:induction false} NoDigitOne(s: string)
    requires forall k :: 0 <= k < |s| ==> s[k] != '1'
    ensures !ContainsIgnoringCase(s, "123")
  {
    assert Lower("123") == "123";
    forall i | 0 <= i <= |Lower(s)| ensures !OccursAt(Lower(s), "123", i) {
      if i + 3 <= |Lower(s)| {
        assert Lower(s)[i] == LowerChar(s[i]) != '1';
        assert Lower(s)[i..i + 3][0] == Lower(s)[i];
      }
    }
  }

  /** `Math.ceil(n / itemsPerPage)`, not clamped: 0 when nothing matches. */
  function TotalPages(n: nat): (pages: nat)
    ensures n <= pages * ItemsPerPage
    ensures n > 0 ==> (pages - 1) * ItemsPerPage < n
    ensures pages == 0 <==> n == 0
  {
    CeilDiv(n, ItemsPerPage)
  }

  /** `filteredUsers.slice(startIndex, startIndex + itemsPerPage)` with `startIndex = (page - 1) * itemsPerPage`. */
  function PaginatedUsers(filtered: seq<User>, page: int): seq<User> {
    var startIndex := (page - 1) * ItemsPerPage;
    JsSlice(filtered, startIndex, startIndex + ItemsPerPage)
  }

  /** From page 1 on, a page is the window `[(page-1)*10, min(page*10, n))` of the filtered list, at most ten users. */
  lemma {:induction false} PageWindow(filtered: seq<User>, page: int)
    requires page >= 1
    ensures var start := (page - 1) * ItemsPerPage;
      PaginatedUsers(filtered, page)
        == if start < |filtered| then filtered[start..Min(page * ItemsPerPage, |filtered|)] else []
    ensures |PaginatedUsers(filtered, page)| <= ItemsPerPage
    ensures page <= TotalPages(|filtered|) ==> PaginatedUsers(filtered, page) != []
  {
  }

  /** "Anterior": `Math.max(prev - 1, 1)`. */
  function PreviousPage(page: int): (r: int)
    ensures r >= 1
    ensures page > 1 ==> r == page - 1
    ensures page <= 1 ==> r == 1
  {
    Max(page - 1, 1)
  }

  /** "Próximo" as written: `Math.min(prev + 1, totalPages)`. */
  function NextPageAsWritten(page: int, totalPages: nat): (r: int)
    ensures r <= totalPages
    ensures page < totalPages ==> r == page + 1
    ensures page >= totalPages ==> r == totalPages
  {
    Min(page + 1, totalPages)
  }

  /** With no matching user the Next button is enabled on page 1 (1 is not 0), and pressing it moves to page 0, which is then shown as "page 0 of 0". */
  lemma NextWithNoMatchesGoesToPageZero(users: seq<User>, f: AdminFilters)
    requires FilteredUsers(users, f) == []
    ensures TotalPages(|FilteredUsers(users, f)|) != 1
    ensures NextPageAsWritten(1, TotalPages(|FilteredUsers(users, f)|)) == 0
  {
  }

  /** "Próximo" clamped to the first page as well, the evident intent: the page stays within `[1, max(1, totalPages)]`. */
  function NextPage(page: int, totalPages: nat): (r: int)
    ensures 1 <= r <= Max(1, totalPages)
    ensures 1 <= page < totalPages ==> r == page + 1
    ensures 1 <= page && page >= totalPages ==> r == Max(1, totalPages)
  {
    Max(1, Min(page + 1, totalPages))
  }

  /** The stat cards over the filtered list. */
  datatype AdminStats = AdminStats(total: nat, withInteraction: nat, withoutInteraction: nat, activeRegions: nat)

  predicate HasFlag(u: User) { u.interacao }

  predicate LacksFlag(u: User) { !u.interacao }

  function RegiaoOf(u: User): string { u.regiao }

  function ComputeStats(filtered: seq<User>): (s: AdminStats)
    ensures s.total == |filtered|
    ensures s.withInteraction == |Filter(filtered, HasFlag)|
    ensures s.withoutInteraction == |Filter(filtered, LacksFlag)|
    ensures s.withInteraction + s.withoutInteraction == s.total
    ensures s.activeRegions == |set i | 0 <= i < |filtered| :: filtered[i].regiao|
    ensures s.activeRegions <= s.total
    ensures s.activeRegions == 0 <==> s.total == 0
  {
    FilterComplement(filtered, HasFlag, LacksFlag);
    ImageSize(filtered, RegiaoOf);
    assert Image(filtered, RegiaoOf) == set i | 0 <= i < |filtered| :: filtered[i].regiao;
    AdminStats(|filtered|, |Filter(filtered, HasFlag)|, |Filter(filtered, LacksFlag)|,
      |Image(filtered, RegiaoOf)|)
  }

  function Get(f: AdminFilters, key: FilterKey): string {
    match key
    case RegiaoKey => f.regiao
    case InteracaoKey => f.interacao
    case GeneroKey => f.genero
    case CidadeKey => f.cidade
    case SearchKey => f.search
  }

  /** `{ ...prev, [key]: value }` */
  function Set(f: AdminFilters, key: FilterKey, value: string): (r: AdminFilters)
    ensures Get(r, key) == value
    ensures forall k :: k != key ==> Get(r, k) == Get(f, k)
  {
    match key
    case RegiaoKey => f.(regiao := value)
    case InteracaoKey => f.(interacao := value)
    case GeneroKey => f.(genero := value)
    case CidadeKey => f.(cidade := value)
    case SearchKey => f.(search := value)
  }

  /** The panel's state: the controls and the current page over a fixed user list. */
  class Panel {
    var filters: AdminFilters
    var currentPage: int
    const users: seq<User>

    ghost predicate Valid()
      reads this
    {
      1 <= currentPage <= Max(1, TotalPages(|FilteredUsers(users, filters)|))
    }

    function Filtered(): seq<User>
      reads this
    {
      FilteredUsers(users, filters)
    }

    function Pages(): nat
      reads this
    {
      TotalPages(|Filtered()|)
    }

    /** The users shown on the current page: at most ten, and some whenever anything matches. */
    function Paginated(): (page: seq<User>)
      reads this
      requires Valid()
      ensures |page| <= ItemsPerPage
      ensures Filtered() != [] ==> page != []
    {
      PageWindow(Filtered(), currentPage);
      PaginatedUsers(Filtered(), currentPage)
    }

    constructor (users: seq<User>)
      ensures Valid()
      ensures this.users == users && filters == ClearedFilters && currentPage == 1
    {
      this.users := users;
      filters := ClearedFilters;
      currentPage := 1;
    }

    method Previous()
      requires Valid()
      modifies this`currentPage
      ensures Valid()
      ensures currentPage == PreviousPage(old(currentPage))
    {
      currentPage := PreviousPage(currentPage);
    }

    method Next()
      requires Valid()
      modifies this`currentPage
      ensures Valid()
      ensures currentPage == NextPage(old(currentPage), Pages())
    {
      currentPage := NextPage(currentPage, Pages());
    }

    /** `handleFilterChange`: set one control and go back to page 1. */
    method ChangeFilter(key: FilterKey, value: string)
      requires Valid()
      modifies this
      ensures Valid()
      ensures filters == Set(old(filters), key, value) && currentPage == 1
    {
      filters := Set(filters, key, value);
      currentPage := 1;
    }

    /** `clearFilters`: every control back to '' and page 1, so the whole list is shown again. */
    method ClearFilters()
      requires Valid()
      modifies this
      ensures Valid()
      ensures filters == ClearedFilters && currentPage == 1
      ensures Filtered() == users
    {
      filters := ClearedFilters;
      currentPage := 1;
      ClearedFiltersKeepEveryone(users);
    }
  }
}
