/** The in-memory store (backend/src/infrastructure/repositories/InMemoryPersonRepository.ts):
    a JavaScript `Map` from id to person, changed in place by `save`, `update`, `delete`
    and `clear`, and scanned in insertion order by the two find methods. */
module PersonRepository {
  import opened Wrappers
  import opened JsText
  import opened PersonEntity
  import opened OrderedMaps

  /** `person.email?.toLowerCase() === email.toLowerCase()`: a person without an email never matches. */
  predicate EmailMatches(p: Person, email: string) {
    p.email.Some? && ToLower(p.email.value) == ToLower(email)
  }

  /** `person.company?.toLowerCase().includes(companyName.toLowerCase())`. */
  predicate CompanyMatches(p: Person, companyName: string) {
    p.company.Some? && Contains(ToLower(p.company.value), ToLower(companyName))
  }

  /** The first of `ps` whose email matches, or none. */
  function FirstByEmail(ps: seq<Person>, email: string): Option<Person> {
    if ps == [] then None
    else if EmailMatches(ps[0], email) then Some(ps[0])
    else FirstByEmail(ps[1..], email)
  }

  /** `FirstByEmail` finds the earliest match in iteration order, and finds nothing only
      when nobody matches. */
  lemma {:induction false} FirstByEmailIsFirst(ps: seq<Person>, email: string)
    ensures FirstByEmail(ps, email).None? <==> forall i :: 0 <= i < |ps| ==> !EmailMatches(ps[i], email)
    ensures FirstByEmail(ps, email).Some? ==>
              exists i :: 0 <= i < |ps| && FirstByEmail(ps, email) == Some(ps[i]) && EmailMatches(ps[i], email)
                          && forall j :: 0 <= j < i ==> !EmailMatches(ps[j], email)
  {
    if ps != [] && !EmailMatches(ps[0], email) {
      FirstByEmailIsFirst(ps[1..], email);
      if FirstByEmail(ps, email).Some? {
        var i :| 0 <= i < |ps[1..]| && FirstByEmail(ps[1..], email) == Some(ps[1..][i])
                 && EmailMatches(ps[1..][i], email) && forall j :: 0 <= j < i ==> !EmailMatches(ps[1..][j], email);
        forall j | 0 <= j < i + 1 ensures !EmailMatches(ps[j], email) {
          if j > 0 { assert ps[j] == ps[1..][j - 1]; }
        }
        assert ps[i + 1] == ps[1..][i];
      } else {
        forall i | 0 <= i < |ps| ensures !EmailMatches(ps[i], email) {
          if i > 0 { assert ps[i] == ps[1..][i - 1]; }
        }
      }
    }
  }

  /** The converse characterisation, used by the scanning loop. */
  lemma {:induction false} FirstByEmailAt(ps: seq<Person>, email: string, i: nat)
    requires i <= |ps|
    requires forall j :: 0 <= j < i ==> !EmailMatches(ps[j], email)
    ensures i < |ps| && EmailMatches(ps[i], email) ==> FirstByEmail(ps, email) == Some(ps[i])
    ensures i == |ps| ==> FirstByEmail(ps, email) == None
    decreases i
  {
    if i > 0 {
      FirstByEmailAt(ps[1..], email, i - 1);
    }
  }

  /** Appending a person after an existing match does not change what is found. */
  lemma {:induction false} FirstByEmailAppend(ps: seq<Person>, p: Person, email: string)
    requires FirstByEmail(ps, email).Some?
    ensures FirstByEmail(ps + [p], email) == FirstByEmail(ps, email)
  {
    if !EmailMatches(ps[0], email) {
      assert (ps + [p])[1..] == ps[1..] + [p];
      FirstByEmailAppend(ps[1..], p, email);
    }
  }

  /** The persons of `ps` whose company matches, in the order of `ps`. */
  function ByCompany(ps: seq<Person>, companyName: string): seq<Person> {
    if ps == [] then []
    else ByCompany(ps[..|ps| - 1], companyName)
         + (if CompanyMatches(ps[|ps| - 1], companyName) then [ps[|ps| - 1]] else [])
  }

  /** `ByCompany` keeps exactly the matching persons, and no more of them than there are. */
  lemma {:induction false} ByCompanyMembers(ps: seq<Person>, companyName: string)
    ensures forall p :: p in ByCompany(ps, companyName) <==> p in ps && CompanyMatches(p, companyName)
    ensures |ByCompany(ps, companyName)| <= |ps|
  {
    if ps != [] {
      var init := ps[..|ps| - 1];
      ByCompanyMembers(init, companyName);
      assert ps == init + [ps[|ps| - 1]];
    }
  }

  /** The store never holds a person under another person's id. */
  ghost predicate IdKeyed(m: OrderedMap<Person>) {
    forall k :: k in m.entries ==> m.entries[k].id == k
  }

  /** Two persons with the same email: the one inserted first keeps being found after
      the other is saved under a new id. */
  lemma FirstInsertedWins(m: OrderedMap<Person>, p: Person, email: string)
    requires m.Valid()
    requires p.id !in m.entries
    requires FirstByEmail(m.Values(), email).Some?
    ensures FirstByEmail(m.Set(p.id, p).Values(), email) == FirstByEmail(m.Values(), email)
  {
    SetValues(m, p.id, p);
    FirstByEmailAppend(m.Values(), p, email);
  }

  const NotFoundPrefix := "Pessoa com ID "
  const NotFoundSuffix := " não encontrada"

  class InMemoryPersonRepository {
    var persons: OrderedMap<Person>

    ghost predicate Valid()
      reads this
    {
      persons.Valid() && IdKeyed(persons)
    }

    constructor()
      ensures Valid()
      ensures persons == Empty()
    {
      persons := Empty();
    }

    /** `findById`. */
    method FindById(id: string) returns (r: Option<Person>)
      requires Valid()
      ensures r == persons.Get(id)
      ensures r.Some? ==> r.value.id == id
    {
      r := persons.Get(id);
    }

    /** `findByEmail`: the first person in insertion order whose email equals the query
        ignoring case. */
    method FindByEmail(email: string) returns (r: Option<Person>)
      requires Valid()
      ensures r == FirstByEmail(persons.Values(), email)
    {
      var i := 0;
      while i < |persons.keys|
        invariant 0 <= i <= |persons.keys|
        invariant forall j :: 0 <= j < i ==> !EmailMatches(persons.Values()[j], email)
      {
        var person := persons.entries[persons.keys[i]];
        if person.email.Some? && ToLower(person.email.value) == ToLower(email) {
          FirstByEmailAt(persons.Values(), email, i);
          return Some(person);
        }
        i := i + 1;
      }
      FirstByEmailAt(persons.Values(), email, i);
      return None;
    }

    /** `findByCompany`: every person whose company contains the query ignoring case, in
        insertion order. */
    method FindByCompany(companyName: string) returns (result: seq<Person>)
      requires Valid()
      ensures result == ByCompany(persons.Values(), companyName)
    {
      ghost var vs := persons.Values();
      result := [];
      var i := 0;
      while i < |persons.keys|
        invariant 0 <= i <= |persons.keys|
        invariant result == ByCompany(vs[..i], companyName)
      {
        var person := persons.entries[persons.keys[i]];
        assert vs[..i + 1][..i] == vs[..i];
        if person.company.Some? && Contains(ToLower(person.company.value), ToLower(companyName)) {
          result := result + [person];
        }
        i := i + 1;
      }
      assert vs[..i] == vs;
    }

    /** `save`: stores `person` under its id, replacing any earlier entry in place. */
    method Save(person: Person) returns (r: Person)
      requires Valid()
      modifies this
      ensures Valid()
      ensures persons == old(persons).Set(person.id, person)
      ensures r == person
    {
      persons := persons.Set(person.id, person);
      r := person;
    }

    /** `update`: throws and changes nothing when the id is absent, replaces otherwise. */
    method Update(person: Person) returns (r: Result<Person>)
      requires Valid()
      modifies this
      ensures Valid()
      ensures person.id !in old(persons.entries) ==>
                r == Failure(NotFoundPrefix + person.id + NotFoundSuffix) && persons == old(persons)
      ensures person.id in old(persons.entries) ==>
                r == Success(person) && persons == old(persons).Set(person.id, person)
    {
      if person.id !in persons.entries {
        return Failure(NotFoundPrefix + person.id + NotFoundSuffix);
      }
      persons := persons.Set(person.id, person);
      r := Success(person);
    }

    /** `delete`: removes `id` and nothing else; absent ids are a no-op. */
    method Delete(id: string)
      requires Valid()
      modifies this
      ensures Valid()
      ensures persons == old(persons).Delete(id)
    {
      persons := persons.Delete(id);
    }

    /** `clear`. */
    method Clear()
      modifies this
      ensures Valid()
      ensures persons == Empty()
    {
      persons := Empty();
    }

    /** `getAll`: every stored person, in insertion order. */
    method GetAll() returns (r: seq<Person>)
      requires Valid()
      ensures r == persons.Values()
      ensures forall k :: k in persons.entries ==> persons.entries[k] in r
    {
      r := persons.Values();
      forall k | k in persons.entries ensures persons.entries[k] in r {
        var i :| 0 <= i < |persons.keys| && persons.keys[i] == k;
        assert r[i] == persons.entries[k];
      }
    }
  }
}
