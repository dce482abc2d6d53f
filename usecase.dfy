/** The cache-aware search use case (backend/src/application/usecases/SearchPersonUseCase.ts):
    validate the request, look the query up in the store, answer from it when the entry
    is fresh (email) or the list is non-empty (company), otherwise aggregate from the
    providers and save what was found. A thrown error becomes a failed response. */
module SearchUseCase {
  import opened Wrappers
  import opened JsText
  import opened PersonEntity
  import opened OrderedMaps
  import opened PersonSearch
  import opened PersonRepository

  /** `Person | Person[]`. */
  datatype SearchData = One(person: Person) | Many(persons: seq<Person>)

  /** `SearchPersonResponse`; absent optional members are `None`. */
  datatype Response = Response(success: bool, data: Option<SearchData>, error: Option<string>, cached: Option<bool>)

  function ErrorResponse(message: string): Response { Response(false, None, Some(message), None) }
  function Hit(data: SearchData): Response { Response(true, Some(data), None, Some(true)) }
  function Fresh(data: SearchData): Response { Response(true, Some(data), None, Some(false)) }

  const QueryError := "Query de busca é obrigatória"
  const TypeError := "Tipo de busca deve ser \"email\" ou \"company\""
  const NoResultError := "Nenhuma informação encontrada"

  /** Thirty minutes in milliseconds. */
  const FreshnessWindow := 30 * 60 * 1000

  /** `isRecentData`: updated strictly after thirty minutes ago. */
  predicate IsRecentData(p: Person, now: int) {
    p.updatedAt > now - FreshnessWindow
  }

  /** A record is fresh iff it is less than thirty minutes old; exactly thirty is stale. */
  lemma RecentMeansYoungerThanThirtyMinutes(p: Person, now: int)
    ensures IsRecentData(p, now) <==> now - p.updatedAt < 1800000
    ensures p.updatedAt == now - 1800000 ==> !IsRecentData(p, now)
  {
  }

  /** The store after saving `ps` one after the other. */
  function SaveAll(m: OrderedMap<Person>, ps: seq<Person>): (r: OrderedMap<Person>)
    requires m.Valid()
    ensures r.Valid()
    ensures IdKeyed(m) ==> IdKeyed(r)
  {
    if ps == [] then m else SaveAll(m, ps[..|ps| - 1]).Set(ps[|ps| - 1].id, ps[|ps| - 1])
  }

  /** After the saves every saved person can be found by id, the last one saved under an id winning. */
  lemma {:induction false} SaveAllFindable(m: OrderedMap<Person>, ps: seq<Person>, i: nat)
    requires m.Valid()
    requires i < |ps|
    requires forall j :: i < j < |ps| ==> ps[j].id != ps[i].id
    ensures SaveAll(m, ps).Get(ps[i].id) == Some(ps[i])
  {
    var init := ps[..|ps| - 1];
    if i < |ps| - 1 {
      SaveAllFindable(m, init, i);
      SetGet(SaveAll(m, init), ps[|ps| - 1].id, ps[|ps| - 1], ps[i].id);
    }
  }

  predicate ValidQuery(query: Option<string>) { query.Some? && Trim(query.value) != [] }

  /** `execute`. */
  method Execute(repo: InMemoryPersonRepository, query: Option<string>, kind: string, now: int,
                 emailResults: seq<Settled<Option<PartialPerson>>>, id: string,
                 companyResults: seq<Settled<seq<PartialPerson>>>, idOf: nat -> string)
    returns (resp: Response)
    requires repo.Valid()
    modifies repo
    ensures repo.Valid()
    ensures !ValidQuery(query) ==> resp == ErrorResponse(QueryError) && repo.persons == old(repo.persons)
    ensures ValidQuery(query) && kind != "email" && kind != "company" ==>
              resp == ErrorResponse(TypeError) && repo.persons == old(repo.persons)
    // email path
    ensures ValidQuery(query) && kind == "email" ==>
              var cached := FirstByEmail(old(repo.persons).Values(), query.value);
              var found := EmailSearch(query.value, emailResults, id, now);
              && (cached.Some? && IsRecentData(cached.value, now) ==>
                    resp == Hit(One(cached.value)) && repo.persons == old(repo.persons))
              && (!(cached.Some? && IsRecentData(cached.value, now)) ==>
                    && (found.Failure? ==> resp == ErrorResponse(found.error) && repo.persons == old(repo.persons))
                    && (found == Success(None) ==> resp == ErrorResponse(NoResultError) && repo.persons == old(repo.persons))
                    && (found.Success? && found.value.Some? ==>
                          resp == Fresh(One(found.value.value))
                          && repo.persons == old(repo.persons).Set(found.value.value.id, found.value.value)))
    // company path
    ensures ValidQuery(query) && kind == "company" ==>
              var cached := ByCompany(old(repo.persons).Values(), query.value);
              var found := CompanySearch(query.value, companyResults, idOf, now);
              && found.Success?
              && (cached != [] ==> resp == Hit(Many(cached)) && repo.persons == old(repo.persons))
              && (cached == [] ==>
                    resp == Fresh(Many(found.value)) && repo.persons == SaveAll(old(repo.persons), found.value))
  {
    if query.None? || Trim(query.value) == [] {
      return ErrorResponse(QueryError);
    }
    if kind != "email" && kind != "company" {
      return ErrorResponse(TypeError);
    }
    var q := query.value;
    if kind == "email" {
      var cachedPerson := repo.FindByEmail(q);
      if cachedPerson.Some? && IsRecentData(cachedPerson.value, now) {
        return Hit(One(cachedPerson.value));
      }
      var found := SearchByEmail(q, emailResults, id, now);
      match found
      case Failure(message) =>
        resp := ErrorResponse(message);
      case Success(None) =>
        resp := ErrorResponse(NoResultError);
      case Success(Some(p)) =>
        var _ := repo.Save(p);
        resp := Fresh(One(p));
    } else {
      var cachedList := repo.FindByCompany(q);
      if cachedList != [] {
        return Hit(Many(cachedList));
      }
      // The query passed the trim check, so `searchByCompany` does not throw.
      var found := SearchByCompany(q, companyResults, idOf, now);
      var persons := found.value;
      ghost var before := repo.persons;
      var i := 0;
      while i < |persons|
        invariant 0 <= i <= |persons|
        invariant repo.Valid()
        invariant repo.persons == SaveAll(before, persons[..i])
      {
        assert persons[..i + 1][..i] == persons[..i];
        var _ := repo.Save(persons[i]);
        i := i + 1;
      }
      assert persons[..i] == persons;
      resp := Fresh(Many(persons));
    }
  }
}
