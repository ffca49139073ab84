/**
 * The voter ("eleitor") record and the query that `searchEleitores` builds
 * against the `eleitores` table. The table-store's fluent builder is modelled
 * as a list of tagged constraints plus an ordering; `Satisfies` gives that
 * list its meaning, the conjunction of its constraints.
 */
module EleitoresService {
  import opened Wrappers
  import opened Text

  /** One row of the `eleitores` table; optional columns are `Option`s. */
  datatype Eleitor = Eleitor(
    id: Option<string>,
    regiao: string,
    bairro: Option<string>,
    cep: Option<string>,
    cidade: string,
    nome: string,
    email: Option<string>,
    escola: Option<string>,
    endereco: Option<string>,
    telefone: Option<string>,
    data_nascimento: Option<string>,
    cpf: Option<string>,
    instagram: Option<string>,
    facebook: Option<string>,
    tiktok: Option<string>,
    genero: string,
    religiao: Option<string>,
    profissao: Option<string>,
    observacoes: Option<string>,
    interacao: bool,
    created_at: Option<string>,
    updated_at: Option<string>)

  /** The filter object `searchEleitores` accepts: every field may be left undefined. */
  datatype SearchFilters = SearchFilters(
    search: Option<string>,
    regiao: Option<string>,
    cidade: Option<string>,
    genero: Option<string>,
    religiao: Option<string>,
    interacao: Option<bool>)

  const NoSearchFilters := SearchFilters(None, None, None, None, None, None)

  /** The columns the query layer filters or orders on. */
  datatype Column = Regiao | Cidade | Genero | Religiao | Interacao | Nome | Email | Cpf | CreatedAt

  /** A value compared against a column. */
  datatype Value = Text(text: string) | Flag(flag: bool)

  /** A single column condition: `eq(col, v)`, or `ilike(col, '%needle%')`. */
  datatype Atom = Eq(col: Column, value: Value) | ILike(col: Column, needle: string)

  /** One constraint of the builder: `.eq`/`.ilike` on its own, or `.or(...)` over several conditions. */
  datatype Constraint = Where(atom: Atom) | AnyOf(atoms: seq<Atom>)

  datatype Ordering = OrderBy(col: Column, ascending: bool)

  /** A `select('*')` request: the constraints added, in order, and the ordering asked for. */
  datatype Query = Query(constraints: seq<Constraint>, order: Ordering)

  /** Newest first: `order('created_at', { ascending: false })`. */
  const NewestFirst := OrderBy(CreatedAt, false)

  /** The request `fetchEleitores` sends: every row, newest first. */
  const AllEleitoresQuery := Query([], NewestFirst)

  /** JavaScript truthiness of an optional string: defined and not empty. */
  predicate Present(s: Option<string>) {
    s.Some? && s.value != ""
  }

  /** The value a row holds in a column; `None` is SQL NULL. */
  function ColumnValue(e: Eleitor, col: Column): Option<Value> {
    match col
    case Regiao => Some(Text(e.regiao))
    case Cidade => Some(Text(e.cidade))
    case Genero => Some(Text(e.genero))
    case Religiao => if e.religiao.Some? then Some(Text(e.religiao.value)) else None
    case Interacao => Some(Flag(e.interacao))
    case Nome => Some(Text(e.nome))
    case Email => if e.email.Some? then Some(Text(e.email.value)) else None
    case Cpf => if e.cpf.Some? then Some(Text(e.cpf.value)) else None
    case CreatedAt => if e.created_at.Some? then Some(Text(e.created_at.value)) else None
  }

  /** A condition holds when the column is not NULL and compares as asked. */
  predicate AtomHolds(e: Eleitor, a: Atom) {
    match a
    case Eq(col, v) => ColumnValue(e, col) == Some(v)
    case ILike(col, needle) =>
      var cell := ColumnValue(e, col);
      cell.Some? && cell.value.Text? && ContainsIgnoringCase(cell.value.text, needle)
  }

  predicate Holds(e: Eleitor, c: Constraint) {
    match c
    case Where(a) => AtomHolds(e, a)
    case AnyOf(atoms) => exists i :: 0 <= i < |atoms| && AtomHolds(e, atoms[i])
  }

  /** A row is returned by the query when it meets every constraint added. */
  predicate Satisfies(e: Eleitor, cs: seq<Constraint>) {
    forall i :: 0 <= i < |cs| ==> Holds(e, cs[i])
  }

  /** What the free-text search accepts: name or e-mail contains the term ignoring case, or the CPF is exactly the term. */
  predicate SearchHit(e: Eleitor, term: string) {
    ContainsIgnoringCase(e.nome, term)
    || (e.email.Some? && ContainsIgnoringCase(e.email.value, term))
    || e.cpf == Some(term)
  }

  /** Which rows a filter object asks for, field by field (independent of how the query encodes it). */
  predicate MatchesFilters(e: Eleitor, f: SearchFilters) {
    (Present(f.regiao) ==> e.regiao == f.regiao.value)
    && (Present(f.cidade) ==> ContainsIgnoringCase(e.cidade, f.cidade.value))
    && (Present(f.genero) ==> e.genero == f.genero.value)
    && (Present(f.religiao) ==> e.religiao == Some(f.religiao.value))
    && (f.interacao.Some? ==> e.interacao == f.interacao.value)
    && (Present(f.search) ==> SearchHit(e, f.search.value))
  }

  /** No field would add a constraint. */
  predicate NoFilters(f: SearchFilters) {
    !Present(f.regiao) && !Present(f.cidade) && !Present(f.genero)
    && !Present(f.religiao) && f.interacao.None? && !Present(f.search)
  }

  /** The number of fields that add a constraint. */
  function ActiveFilterCount(f: SearchFilters): nat {
    (if Present(f.regiao) then 1 else 0) + (if Present(f.cidade) then 1 else 0)
    + (if Present(f.genero) then 1 else 0) + (if Present(f.religiao) then 1 else 0)
    + (if f.interacao.Some? then 1 else 0) + (if Present(f.search) then 1 else 0)
  }

  /** The `.or(...)` group that the search term adds. */
  function SearchGroup(term: string): Constraint {
    AnyOf([ILike(Nome, term), ILike(Email, term), Eq(Cpf, Text(term))])
  }

  /** How many times constraint `c` appears in `cs`. */
  function Occurrences(cs: seq<Constraint>, c: Constraint): nat {
    multiset(cs)[c]
  }

  /** The constraint each `if` block of the builder appends, if any. */
  function RegiaoClause(f: SearchFilters): seq<Constraint> {
    if Present(f.regiao) then [Where(Eq(Regiao, Text(f.regiao.value)))] else []
  }

  function CidadeClause(f: SearchFilters): seq<Constraint> {
    if Present(f.cidade) then [Where(ILike(Cidade, f.cidade.value))] else []
  }

  function GeneroClause(f: SearchFilters): seq<Constraint> {
    if Present(f.genero) then [Where(Eq(Genero, Text(f.genero.value)))] else []
  }

  function ReligiaoClause(f: SearchFilters): seq<Constraint> {
    if Present(f.religiao) then [Where(Eq(Religiao, Text(f.religiao.value)))] else []
  }

  function InteracaoClause(f: SearchFilters): seq<Constraint> {
    if f.interacao.Some? then [Where(Eq(Interacao, Flag(f.interacao.value)))] else []
  }

  function SearchClause(f: SearchFilters): seq<Constraint> {
    if Present(f.search) then [SearchGroup(f.search.value)] else []
  }

  /** The constraint list the builder ends up with, one `if` block after the other. */
  function RequestedConstraints(f: SearchFilters): seq<Constraint> {
    RegiaoClause(f) + CidadeClause(f) + GeneroClause(f) + ReligiaoClause(f) + InteracaoClause(f) + SearchClause(f)
  }

  /** A conjunction over two lists is the conjunction of the two. */
  lemma SatisfiesConcat(e: Eleitor, a: seq<Constraint>, b: seq<Constraint>)
    ensures Satisfies(e, a + b) <==> Satisfies(e, a) && Satisfies(e, b)
  {
    if Satisfies(e, a) && Satisfies(e, b) {
      forall i | 0 <= i < |a + b| ensures Holds(e, (a + b)[i]) {
        if i < |a| { assert (a + b)[i] == a[i]; } else { assert (a + b)[i] == b[i - |a|]; }
      }
    }
    if Satisfies(e, a + b) {
      forall i | 0 <= i < |a| ensures Holds(e, a[i]) { assert (a + b)[i] == a[i]; }
      forall i | 0 <= i < |b| ensures Holds(e, b[i]) { assert (a + b)[|a| + i] == b[i]; }
    }
  }

  /** The `.or(...)` group holds exactly for the rows the free-text search accepts. */
  lemma SearchGroupMeaning(e: Eleitor, term: string)
    ensures Holds(e, SearchGroup(term)) <==> SearchHit(e, term)
  {
    var atoms := SearchGroup(term).atoms;
    if SearchHit(e, term) {
      if ContainsIgnoringCase(e.nome, term) {
        assert AtomHolds(e, atoms[0]);
      } else if e.email.Some? && ContainsIgnoringCase(e.email.value, term) {
        assert AtomHolds(e, atoms[1]);
      } else {
        assert AtomHolds(e, atoms[2]);
      }
    }
  }

  /** A row meets the built constraints exactly when it matches the filter object field by field. */
  lemma {:induction false} RequestedConstraintsMeaning(e: Eleitor, f: SearchFilters)
    ensures Satisfies(e, RequestedConstraints(f)) <==> MatchesFilters(e, f)
  {
    var p1, p2, p3 := RegiaoClause(f), CidadeClause(f), GeneroClause(f);
    var p4, p5, p6 := ReligiaoClause(f), InteracaoClause(f), SearchClause(f);
    SatisfiesConcat(e, p1 + p2 + p3 + p4 + p5, p6);
    SatisfiesConcat(e, p1 + p2 + p3 + p4, p5);
    SatisfiesConcat(e, p1 + p2 + p3, p4);
    SatisfiesConcat(e, p1 + p2, p3);
    SatisfiesConcat(e, p1, p2);
    ClauseMeaning(e, f);
  }

  /** What each `if` block's constraint demands of a row. */
  lemma ClauseMeaning(e: Eleitor, f: SearchFilters)
    ensures Satisfies(e, RegiaoClause(f)) <==> (Present(f.regiao) ==> e.regiao == f.regiao.value)
    ensures Satisfies(e, CidadeClause(f)) <==> (Present(f.cidade) ==> ContainsIgnoringCase(e.cidade, f.cidade.value))
    ensures Satisfies(e, GeneroClause(f)) <==> (Present(f.genero) ==> e.genero == f.genero.value)
    ensures Satisfies(e, ReligiaoClause(f)) <==> (Present(f.religiao) ==> e.religiao == Some(f.religiao.value))
    ensures Satisfies(e, InteracaoClause(f)) <==> (f.interacao.Some? ==> e.interacao == f.interacao.value)
    ensures Satisfies(e, SearchClause(f)) <==> (Present(f.search) ==> SearchHit(e, f.search.value))
  {
    if Present(f.regiao) { SatisfiesSingle(e, Where(Eq(Regiao, Text(f.regiao.value)))); }
    if Present(f.cidade) { SatisfiesSingle(e, Where(ILike(Cidade, f.cidade.value))); }
    if Present(f.genero) { SatisfiesSingle(e, Where(Eq(Genero, Text(f.genero.value)))); }
    if Present(f.religiao) { SatisfiesSingle(e, Where(Eq(Religiao, Text(f.religiao.value)))); }
    if f.interacao.Some? { SatisfiesSingle(e, Where(Eq(Interacao, Flag(f.interacao.value)))); }
    if Present(f.search) {
      SatisfiesSingle(e, SearchGroup(f.search.value));
      SearchGroupMeaning(e, f.search.value);
    }
  }

  lemma SatisfiesSingle(e: Eleitor, c: Constraint)
    ensures Satisfies(e, [c]) <==> Holds(e, c)
  {
    assert [c][0] == c;
  }

  /** One constraint per field that is set, none for the others. */
  lemma {:induction false} RequestedConstraintsCount(f: SearchFilters)
    ensures |RequestedConstraints(f)| == ActiveFilterCount(f)
    ensures NoFilters(f) <==> RequestedConstraints(f) == []
  {
  }

  /** `regiao` adds exactly one equality constraint carrying its value when it is a non-empty string, and none otherwise. */
  lemma {:induction false} RegiaoOccurrences(f: SearchFilters)
    ensures forall v :: Occurrences(RequestedConstraints(f), Where(Eq(Regiao, Text(v)))) == if Present(f.regiao) && f.regiao.value == v then 1 else 0
  {
    forall v ensures Occurrences(RequestedConstraints(f), Where(Eq(Regiao, Text(v)))) == if Present(f.regiao) && f.regiao.value == v then 1 else 0 {
      OccurrencesByClause(f, Where(Eq(Regiao, Text(v))));
      assert multiset(CidadeClause(f))[Where(Eq(Regiao, Text(v)))] == 0;
      assert multiset(GeneroClause(f))[Where(Eq(Regiao, Text(v)))] == 0;
      assert multiset(ReligiaoClause(f))[Where(Eq(Regiao, Text(v)))] == 0;
      assert multiset(InteracaoClause(f))[Where(Eq(Regiao, Text(v)))] == 0;
      assert multiset(SearchClause(f))[Where(Eq(Regiao, Text(v)))] == 0;
    }
  }

  /** `cidade` adds exactly one case-insensitive `%cidade%` constraint when it is a non-empty string, and none otherwise. */
  lemma {:induction false} CidadeOccurrences(f: SearchFilters)
    ensures forall v :: Occurrences(RequestedConstraints(f), Where(ILike(Cidade, v))) == if Present(f.cidade) && f.cidade.value == v then 1 else 0
  {
    forall v ensures Occurrences(RequestedConstraints(f), Where(ILike(Cidade, v))) == if Present(f.cidade) && f.cidade.value == v then 1 else 0 {
      OccurrencesByClause(f, Where(ILike(Cidade, v)));
      assert multiset(RegiaoClause(f))[Where(ILike(Cidade, v))] == 0;
      assert multiset(GeneroClause(f))[Where(ILike(Cidade, v))] == 0;
      assert multiset(ReligiaoClause(f))[Where(ILike(Cidade, v))] == 0;
      assert multiset(InteracaoClause(f))[Where(ILike(Cidade, v))] == 0;
      assert multiset(SearchClause(f))[Where(ILike(Cidade, v))] == 0;
    }
  }

  /** `genero` adds exactly one equality constraint carrying its value when it is a non-empty string, and none otherwise. */
  lemma {:induction false} GeneroOccurrences(f: SearchFilters)
    ensures forall v :: Occurrences(RequestedConstraints(f), Where(Eq(Genero, Text(v)))) == if Present(f.genero) && f.genero.value == v then 1 else 0
  {
    forall v ensures Occurrences(RequestedConstraints(f), Where(Eq(Genero, Text(v)))) == if Present(f.genero) && f.genero.value == v then 1 else 0 {
      OccurrencesByClause(f, Where(Eq(Genero, Text(v))));
      assert multiset(RegiaoClause(f))[Where(Eq(Genero, Text(v)))] == 0;
      assert multiset(CidadeClause(f))[Where(Eq(Genero, Text(v)))] == 0;
      assert multiset(ReligiaoClause(f))[Where(Eq(Genero, Text(v)))] == 0;
      assert multiset(InteracaoClause(f))[Where(Eq(Genero, Text(v)))] == 0;
      assert multiset(SearchClause(f))[Where(Eq(Genero, Text(v)))] == 0;
    }
  }

  /** `religiao` adds exactly one equality constraint carrying its value when it is a non-empty string, and none otherwise. */
  lemma {:induction false} ReligiaoOccurrences(f: SearchFilters)
    ensures forall v :: Occurrences(RequestedConstraints(f), Where(Eq(Religiao, Text(v)))) == if Present(f.religiao) && f.religiao.value == v then 1 else 0
  {
    forall v ensures Occurrences(RequestedConstraints(f), Where(Eq(Religiao, Text(v)))) == if Present(f.religiao) && f.religiao.value == v then 1 else 0 {
      OccurrencesByClause(f, Where(Eq(Religiao, Text(v))));
      assert multiset(RegiaoClause(f))[Where(Eq(Religiao, Text(v)))] == 0;
      assert multiset(CidadeClause(f))[Where(Eq(Religiao, Text(v)))] == 0;
      assert multiset(GeneroClause(f))[Where(Eq(Religiao, Text(v)))] == 0;
      assert multiset(InteracaoClause(f))[Where(Eq(Religiao, Text(v)))] == 0;
      assert multiset(SearchClause(f))[Where(Eq(Religiao, Text(v)))] == 0;
    }
  }

  /** `interacao` adds exactly one equality constraint whenever it is defined, so `false` filters too. */
  lemma {:induction false} InteracaoOccurrences(f: SearchFilters)
    ensures forall b :: Occurrences(RequestedConstraints(f), Where(Eq(Interacao, Flag(b)))) == if f.interacao == Some(b) then 1 else 0
  {
    forall b ensures Occurrences(RequestedConstraints(f), Where(Eq(Interacao, Flag(b)))) == if f.interacao == Some(b) then 1 else 0 {
      OccurrencesByClause(f, Where(Eq(Interacao, Flag(b))));
      assert multiset(RegiaoClause(f))[Where(Eq(Interacao, Flag(b)))] == 0;
      assert multiset(CidadeClause(f))[Where(Eq(Interacao, Flag(b)))] == 0;
      assert multiset(GeneroClause(f))[Where(Eq(Interacao, Flag(b)))] == 0;
      assert multiset(ReligiaoClause(f))[Where(Eq(Interacao, Flag(b)))] == 0;
      assert multiset(SearchClause(f))[Where(Eq(Interacao, Flag(b)))] == 0;
    }
  }

  /** A non-empty `search` adds exactly one `.or(...)` group over name, e-mail and CPF, and none otherwise. */
  lemma {:induction false} SearchOccurrences(f: SearchFilters)
    ensures forall v :: Occurrences(RequestedConstraints(f), SearchGroup(v)) == if Present(f.search) && f.search.value == v then 1 else 0
  {
    forall v ensures Occurrences(RequestedConstraints(f), SearchGroup(v)) == if Present(f.search) && f.search.value == v then 1 else 0 {
      OccurrencesByClause(f, SearchGroup(v));
      assert multiset(RegiaoClause(f))[SearchGroup(v)] == 0;
      assert multiset(CidadeClause(f))[SearchGroup(v)] == 0;
      assert multiset(GeneroClause(f))[SearchGroup(v)] == 0;
      assert multiset(ReligiaoClause(f))[SearchGroup(v)] == 0;
      assert multiset(InteracaoClause(f))[SearchGroup(v)] == 0;
    }
  }

  /** Occurrences in the whole list, clause by clause. */
  lemma OccurrencesByClause(f: SearchFilters, c: Constraint)
    ensures Occurrences(RequestedConstraints(f), c)
      == multiset(RegiaoClause(f))[c] + multiset(CidadeClause(f))[c] + multiset(GeneroClause(f))[c]
       + multiset(ReligiaoClause(f))[c] + multiset(InteracaoClause(f))[c] + multiset(SearchClause(f))[c]
  {
    var p1, p2, p3 := RegiaoClause(f), CidadeClause(f), GeneroClause(f);
    var p4, p5, p6 := ReligiaoClause(f), InteracaoClause(f), SearchClause(f);
    assert multiset(RequestedConstraints(f))
      == multiset(p1) + multiset(p2) + multiset(p3) + multiset(p4) + multiset(p5) + multiset(p6);
  }

  /** Only which constraints were added matters, not the order in which they were appended. */
  lemma {:induction false} SatisfiesIgnoresOrder(e: Eleitor, cs1: seq<Constraint>, cs2: seq<Constraint>)
    requires multiset(cs1) == multiset(cs2)
    ensures Satisfies(e, cs1) <==> Satisfies(e, cs2)
  {
    if Satisfies(e, cs1) {
      forall j | 0 <= j < |cs2| ensures Holds(e, cs2[j]) {
        assert cs2[j] in multiset(cs1);
        var i :| 0 <= i < |cs1| && cs1[i] == cs2[j];
      }
    }
    if Satisfies(e, cs2) {
      forall i | 0 <= i < |cs1| ensures Holds(e, cs1[i]) {
        assert cs1[i] in multiset(cs2);
        var j :| 0 <= j < |cs2| && cs2[j] == cs1[i];
      }
    }
  }

  /**
   * `searchEleitores`: starts from `select('*')`, appends one constraint per
   * filter field that is set, then orders newest first.
   */
  method SearchEleitores(filters: SearchFilters) returns (q: Query)
    ensures q == Query(RequestedConstraints(filters), NewestFirst)
    ensures forall e :: Satisfies(e, q.constraints) <==> MatchesFilters(e, filters)
    ensures NoFilters(filters) ==> q == AllEleitoresQuery
  {
    var cs: seq<Constraint> := [];
    if Present(filters.regiao) {
      cs := cs + [Where(Eq(Regiao, Text(filters.regiao.value)))];
    }
    ghost var upTo := cs;
    assert upTo == RegiaoClause(filters);
    if Present(filters.cidade) {
      cs := cs + [Where(ILike(Cidade, filters.cidade.value))];
    }
    assert cs == upTo + CidadeClause(filters);
    upTo := cs;
    if Present(filters.genero) {
      cs := cs + [Where(Eq(Genero, Text(filters.genero.value)))];
    }
    assert cs == upTo + GeneroClause(filters);
    upTo := cs;
    if Present(filters.religiao) {
      cs := cs + [Where(Eq(Religiao, Text(filters.religiao.value)))];
    }
    assert cs == upTo + ReligiaoClause(filters);
    upTo := cs;
    if filters.interacao.Some? {
      cs := cs + [Where(Eq(Interacao, Flag(filters.interacao.value)))];
    }
    assert cs == upTo + InteracaoClause(filters);
    upTo := cs;
    if Present(filters.search) {
      cs := cs + [SearchGroup(filters.search.value)];
    }
    assert cs == upTo + SearchClause(filters);
    q := Query(cs, NewestFirst);
    forall e ensures Satisfies(e, q.constraints) <==> MatchesFilters(e, filters) {
      RequestedConstraintsMeaning(e, filters);
    }
    RequestedConstraintsCount(filters);
  }
}
