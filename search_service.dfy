/** The aggregation service (backend/src/domain/services/PersonSearchService.ts).
    `Promise.allSettled` over the providers is given as the sequence of settled outcomes
    in provider order; the merge and the company flattening are the loops of the source. */
module PersonSearch {
  import opened Wrappers
  import opened JsText
  import opened PersonEntity

  /** One entry of the array `Promise.allSettled` resolves to. */
  datatype Settled<T> = Fulfilled(value: T) | Rejected(reason: string)

  /** The eight fields the merge visits (PersonSearchService.ts:99-106). */
  datatype Field = Name | Email | Company | Instagram | Whatsapp | LinkedIn | Twitter | Phone

  function Get(p: PartialPerson, f: Field): Option<string> {
    match f
    case Name => p.name
    case Email => p.email
    case Company => p.company
    case Instagram => p.instagram
    case Whatsapp => p.whatsapp
    case LinkedIn => p.linkedIn
    case Twitter => p.twitter
    case Phone => p.phone
  }

  /** One pass of the loop body: `combinedData.f = combinedData.f || data.f` for every field. */
  function MergeInto(acc: PartialPerson, data: PartialPerson): (r: PartialPerson)
    ensures forall f :: Get(r, f) == Or(Get(acc, f), Get(data, f))
  {
    PartialPerson(Or(acc.name, data.name), Or(acc.email, data.email), Or(acc.company, data.company),
                  Or(acc.instagram, data.instagram), Or(acc.whatsapp, data.whatsapp),
                  Or(acc.linkedIn, data.linkedIn), Or(acc.twitter, data.twitter), Or(acc.phone, data.phone))
  }

  /** What one settled email lookup contributes to the merge: its value when it
      fulfilled with a non-null object, nothing otherwise. */
  function Contribution(s: Settled<Option<PartialPerson>>): seq<PartialPerson> {
    match s
    case Fulfilled(Some(p)) => [p]
    case _ => []
  }

  /** The values the merge reads, in provider order. */
  function Contributors(results: seq<Settled<Option<PartialPerson>>>): seq<PartialPerson>
  {
    if results == [] then []
    else Contributors(results[..|results| - 1]) + Contribution(results[|results| - 1])
  }

  lemma {:induction false} ContributorsAppend(a: seq<Settled<Option<PartialPerson>>>, b: seq<Settled<Option<PartialPerson>>>)
    ensures Contributors(a + b) == Contributors(a) + Contributors(b)
    decreases |b|
  {
    if b == [] {
      assert a + b == a;
    } else {
      var b' := b[..|b| - 1];
      assert (a + b)[..|a + b| - 1] == a + b';
      ContributorsAppend(a, b');
    }
  }

  /** A rejected result, or one that fulfilled with null, contributes nothing wherever it stands. */
  lemma SkippedResult(a: seq<Settled<Option<PartialPerson>>>, x: Settled<Option<PartialPerson>>,
                      b: seq<Settled<Option<PartialPerson>>>)
    requires x.Rejected? || x == Fulfilled(None)
    ensures Contributors(a + [x] + b) == Contributors(a + b)
  {
    var before := Contributors(a);
    ContributorsAppend(a, [x]);
    ContributorsSingle(x);
    assert Contributors(a + [x]) == before + [];
    assert before + [] == before;
    ContributorsAppend(a + [x], b);
    ContributorsAppend(a, b);
  }

  lemma ContributorsSingle(x: Settled<Option<PartialPerson>>)
    ensures Contributors([x]) == Contribution(x)
  {
    assert [x][..0] == [];
  }

  /** The merge as the loop computes it: a left fold of `MergeInto` from `{}`. */
  function Fold(ps: seq<PartialPerson>): PartialPerson {
    if ps == [] then EmptyPartial else MergeInto(Fold(ps[..|ps| - 1]), ps[|ps| - 1])
  }

  /** Reference definition of one merged field: the value of the first of `ps` whose
      field is truthy; when none is, the value of the last one (what `||` leaves). */
  function FirstTruthy(ps: seq<PartialPerson>, f: Field): Option<string>
    requires ps != []
  {
    if |ps| == 1 || Truthy(Get(ps[0], f)) then Get(ps[0], f) else FirstTruthy(ps[1..], f)
  }

  lemma {:induction false} FirstTruthyAppend(ps: seq<PartialPerson>, x: PartialPerson, f: Field)
    requires ps != []
    ensures FirstTruthy(ps + [x], f) == Or(FirstTruthy(ps, f), Get(x, f))
  {
    if |ps| > 1 && !Truthy(Get(ps[0], f)) {
      assert (ps + [x])[1..] == ps[1..] + [x];
      FirstTruthyAppend(ps[1..], x, f);
    }
  }

  /** The fold the loop performs computes the reference definition, field by field. */
  lemma {:induction false} FoldIsFirstTruthy(ps: seq<PartialPerson>, f: Field)
    requires ps != []
    ensures Get(Fold(ps), f) == FirstTruthy(ps, f)
    decreases |ps|
  {
    if |ps| > 1 {
      var init := ps[..|ps| - 1];
      FoldIsFirstTruthy(init, f);
      FirstTruthyAppend(init, ps[|ps| - 1], f);
      assert init + [ps[|ps| - 1]] == ps;
    }
  }

  /** First-truthy-wins: a truthy merged field comes from the first contributor holding a
      truthy value for it; a falsy one means no contributor had a truthy value. */
  lemma {:induction false} FirstTruthyMeaning(ps: seq<PartialPerson>, f: Field)
    requires ps != []
    ensures Truthy(FirstTruthy(ps, f)) <==> exists i :: 0 <= i < |ps| && Truthy(Get(ps[i], f))
    ensures Truthy(FirstTruthy(ps, f)) ==>
              exists i :: 0 <= i < |ps| && FirstTruthy(ps, f) == Get(ps[i], f)
                          && forall j :: 0 <= j < i ==> !Truthy(Get(ps[j], f))
    ensures !Truthy(FirstTruthy(ps, f)) ==> FirstTruthy(ps, f) == Get(ps[|ps| - 1], f)
  {
    if |ps| > 1 && !Truthy(Get(ps[0], f)) {
      FirstTruthyMeaning(ps[1..], f);
      if Truthy(FirstTruthy(ps, f)) {
        var i :| 0 <= i < |ps[1..]| && FirstTruthy(ps[1..], f) == Get(ps[1..][i], f)
                 && forall j :: 0 <= j < i ==> !Truthy(Get(ps[1..][j], f));
        assert FirstTruthy(ps, f) == Get(ps[i + 1], f);
        forall j | 0 <= j < i + 1 ensures !Truthy(Get(ps[j], f)) {
          if j > 0 { assert ps[j] == ps[1..][j - 1]; }
        }
      } else {
        forall i | 0 <= i < |ps| ensures !Truthy(Get(ps[i], f)) {
          if i > 0 { assert ps[i] == ps[1..][i - 1]; }
        }
      }
    }
  }

  /** The object `combineResults` returns: null when nothing contributed. */
  function Merged(results: seq<Settled<Option<PartialPerson>>>): Option<PartialPerson> {
    var ps := Contributors(results);
    if ps == [] then None else Some(Fold(ps))
  }

  /** `combineResults`: null iff no provider fulfilled with a non-null value; otherwise
      every field is the first truthy value among the contributors in provider order. */
  method CombineResults(results: seq<Settled<Option<PartialPerson>>>) returns (combined: Option<PartialPerson>)
    ensures combined == Merged(results)
    ensures combined.None? <==> Contributors(results) == []
    ensures combined.Some? ==> forall f :: Get(combined.value, f) == FirstTruthy(Contributors(results), f)
  {
    var data := EmptyPartial;
    var hasKeys := false;
    var i := 0;
    while i < |results|
      invariant 0 <= i <= |results|
      invariant hasKeys == (Contributors(results[..i]) != [])
      invariant data == Fold(Contributors(results[..i]))
    {
      assert results[..i + 1][..i] == results[..i];
      var ps := Contributors(results[..i]);
      assert Contributors(results[..i + 1]) == ps + Contribution(results[i]);
      if results[i].Fulfilled? && results[i].value.Some? {
        var d := results[i].value.value;
        assert (ps + [d])[..|ps|] == ps;
        data := MergeInto(data, d);
        hasKeys := true;
      } else {
        assert Contributors(results[..i + 1]) == ps;
      }
      i := i + 1;
    }
    assert results[..|results|] == results;
    combined := if hasKeys then Some(data) else None;
    forall f | combined.Some? ensures Get(combined.value, f) == FirstTruthy(Contributors(results), f) {
      FoldIsFirstTruthy(Contributors(results), f);
    }
  }

  /** The argument `searchByEmail` passes to `Person.create` from the merged object: the
      merged email or else the query, and each optional field only when truthy. */
  function MergedData(c: PartialPerson, email: string): PersonData
    requires c.name.Some?
  {
    PersonData(c.name.value, Or(c.email, Some(email)), IfTruthy(c.company), IfTruthy(c.instagram),
               IfTruthy(c.whatsapp), IfTruthy(c.linkedIn), IfTruthy(c.twitter), IfTruthy(c.phone))
  }

  /** What `searchByEmail` resolves to, or the message it throws. */
  function EmailSearch(email: string, results: seq<Settled<Option<PartialPerson>>>, id: string, now: int)
    : Result<Option<Person>>
  {
    if !ValidateEmail(email) then Failure(EmailError)
    else
      var merged := Merged(results);
      if merged.None? || !Truthy(merged.value.name) then Success(None)
      else
        match Create(id, now, MergedData(merged.value, email))
        case Failure(e) => Failure(e)
        case Success(p) => Success(Some(p))
  }

  /** `searchByEmail`: an invalid email throws before the merge; no merged name gives
      null; otherwise the merged person is created, and a create error is thrown. */
  method SearchByEmail(email: string, results: seq<Settled<Option<PartialPerson>>>, id: string, now: int)
    returns (r: Result<Option<Person>>)
    ensures r == EmailSearch(email, results, id, now)
    ensures !ValidateEmail(email) ==> r == Failure(EmailError)
    ensures ValidateEmail(email) && (Merged(results).None? || !Truthy(Merged(results).value.name))
            ==> r == Success(None)
    ensures ValidateEmail(email) && Merged(results).Some? && Truthy(Merged(results).value.name) ==>
              var data := MergedData(Merged(results).value, email);
              && (r.Success? <==> Create(id, now, data).Success?)
              && (r.Success? ==> r.value.Some? && Stores(r.value.value, id, now, data))
              && (r.Failure? ==> r == Failure(Create(id, now, data).error))
  {
    if !ValidateEmail(email) {
      return Failure(EmailError);
    }
    var combined := CombineResults(results);
    if combined.None? || !Truthy(combined.value.name) {
      return Success(None);
    }
    var created := Create(id, now, MergedData(combined.value, email));
    match created
    case Failure(e) => r := Failure(e);
    case Success(p) => r := Success(Some(p));
  }

  const CompanyNameError := "Nome da empresa é obrigatório"

  /** The candidate lists of the providers that fulfilled, flattened in provider order
      and then in each provider's own order. */
  function Candidates(results: seq<Settled<seq<PartialPerson>>>): seq<PartialPerson> {
    if results == [] then []
    else
      var last := results[|results| - 1];
      Candidates(results[..|results| - 1]) + (if last.Fulfilled? then last.value else [])
  }

  /** The argument `searchByCompany` passes to `Person.create` for a candidate. */
  function CandidateData(c: PartialPerson, companyName: string): PersonData
    requires c.name.Some?
  {
    PersonData(c.name.value, IfTruthy(c.email), Or(c.company, Some(companyName)), IfTruthy(c.instagram),
               IfTruthy(c.whatsapp), IfTruthy(c.linkedIn), IfTruthy(c.twitter), IfTruthy(c.phone))
  }

  /** What one candidate adds to the output: the created person, or nothing when its
      name is falsy or `Person.create` throws. */
  function Keep(c: PartialPerson, companyName: string, id: string, now: int): seq<Person> {
    if !Truthy(c.name) then []
    else
      match Create(id, now, CandidateData(c, companyName))
      case Success(p) => [p]
      case Failure(_) => []
  }

  /** The output for candidates `cs` when the k-th of them adds `keep(cs[k], base + k)`. */
  function BuildWith(cs: seq<PartialPerson>, keep: (PartialPerson, nat) -> seq<Person>, base: nat): seq<Person> {
    if cs == [] then []
    else BuildWith(cs[..|cs| - 1], keep, base) + keep(cs[|cs| - 1], base + |cs| - 1)
  }

  /** The output for candidates `cs`, the k-th of which is created with id `idOf(base + k)`. */
  function Build(cs: seq<PartialPerson>, companyName: string, idOf: nat -> string, now: int, base: nat): seq<Person> {
    BuildWith(cs, (c: PartialPerson, k: nat) => Keep(c, companyName, idOf(k), now), base)
  }

  lemma {:induction false} BuildWithAppend(a: seq<PartialPerson>, b: seq<PartialPerson>,
                                           keep: (PartialPerson, nat) -> seq<Person>, base: nat)
    ensures BuildWith(a + b, keep, base) == BuildWith(a, keep, base) + BuildWith(b, keep, base + |a|)
    decreases |b|
  {
    if b == [] {
      assert a + b == a;
    } else {
      var b' := b[..|b| - 1];
      assert (a + b)[..|a + b| - 1] == a + b';
      BuildWithAppend(a, b', keep, base);
    }
  }

  /** The output of a concatenation is the concatenation of the outputs: candidates are
      handled in order and one candidate's failure does not affect the others. */
  lemma BuildAppend(a: seq<PartialPerson>, b: seq<PartialPerson>, companyName: string,
                    idOf: nat -> string, now: int, base: nat)
    ensures Build(a + b, companyName, idOf, now, base)
            == Build(a, companyName, idOf, now, base) + Build(b, companyName, idOf, now, base + |a|)
  {
    BuildWithAppend(a, b, (c: PartialPerson, k: nat) => Keep(c, companyName, idOf(k), now), base);
  }

  lemma BuildLast(cs: seq<PartialPerson>, companyName: string, idOf: nat -> string, now: int, base: nat)
    requires cs != []
    ensures Build(cs, companyName, idOf, now, base)
            == Build(cs[..|cs| - 1], companyName, idOf, now, base)
               + Keep(cs[|cs| - 1], companyName, idOf(base + |cs| - 1), now)
  {
  }

  lemma BuildSnoc(cs: seq<PartialPerson>, c: PartialPerson, companyName: string, idOf: nat -> string, now: int)
    ensures Build(cs + [c], companyName, idOf, now, 0)
            == Build(cs, companyName, idOf, now, 0) + Keep(c, companyName, idOf(|cs|), now)
  {
    assert (cs + [c])[..|cs|] == cs;
  }

  lemma PrefixSnoc<T>(a: seq<T>, l: seq<T>, j: nat)
    requires j < |l|
    ensures a + l[..j + 1] == (a + l[..j]) + [l[j]]
  {
    assert l[..j + 1] == l[..j] + [l[j]];
  }

  lemma CandidatesSnoc(results: seq<Settled<seq<PartialPerson>>>, i: nat)
    requires i < |results|
    ensures Candidates(results[..i + 1])
            == Candidates(results[..i]) + (if results[i].Fulfilled? then results[i].value else [])
  {
    assert results[..i + 1][..i] == results[..i];
  }

  /** A candidate without a truthy name, or whose creation throws, is skipped. */
  lemma SkippedCandidate(a: seq<PartialPerson>, c: PartialPerson, b: seq<PartialPerson>, companyName: string,
                         idOf: nat -> string, now: int)
    requires Keep(c, companyName, idOf(|a|), now) == []
    ensures Build(a + [c] + b, companyName, idOf, now, 0)
            == Build(a, companyName, idOf, now, 0) + Build(b, companyName, idOf, now, |a| + 1)
  {
    var before := Build(a, companyName, idOf, now, 0);
    BuildAppend(a, [c], companyName, idOf, now, 0);
    BuildSingle(c, companyName, idOf, now, |a|);
    assert Build(a + [c], companyName, idOf, now, 0) == before + [];
    assert before + [] == before;
    BuildAppend(a + [c], b, companyName, idOf, now, 0);
  }

  lemma BuildSingle(c: PartialPerson, companyName: string, idOf: nat -> string, now: int, base: nat)
    ensures Build([c], companyName, idOf, now, base) == Keep(c, companyName, idOf(base), now)
  {
    BuildLast([c], companyName, idOf, now, base);
    assert [c][..0] == [];
    assert Build([], companyName, idOf, now, base) == [];
  }

  /** Every output person comes from a candidate with a truthy name, carries the
      candidate's company or else the query, and there are never more persons than candidates. */
  lemma {:induction false} BuildShape(cs: seq<PartialPerson>, companyName: string, idOf: nat -> string, now: int, base: nat)
    ensures |Build(cs, companyName, idOf, now, base)| <= |cs|
    ensures forall p :: p in Build(cs, companyName, idOf, now, base) ==>
              exists k :: 0 <= k < |cs| && Truthy(cs[k].name) && p.name == cs[k].name.value
                          && p.company == Or(cs[k].company, Some(companyName))
                          && p.id == idOf(base + k) && p.createdAt == now
  {
    if cs == [] {
      assert Build(cs, companyName, idOf, now, base) == [];
    } else {
      var init := cs[..|cs| - 1];
      BuildLast(cs, companyName, idOf, now, base);
      BuildShape(init, companyName, idOf, now, base);
      forall p | p in Build(cs, companyName, idOf, now, base)
        ensures exists k :: 0 <= k < |cs| && Truthy(cs[k].name) && p.name == cs[k].name.value
                            && p.company == Or(cs[k].company, Some(companyName))
                            && p.id == idOf(base + k) && p.createdAt == now
      {
        if p in Build(init, companyName, idOf, now, base) {
          var k :| 0 <= k < |init| && Truthy(init[k].name) && p.name == init[k].name.value
                   && p.company == Or(init[k].company, Some(companyName))
                   && p.id == idOf(base + k) && p.createdAt == now;
          assert init[k] == cs[k];
        } else {
          assert p in Keep(cs[|cs| - 1], companyName, idOf(base + |cs| - 1), now);
        }
      }
    }
  }

  /** What `searchByCompany` resolves to, or the message it throws. */
  function CompanySearch(companyName: string, results: seq<Settled<seq<PartialPerson>>>,
                         idOf: nat -> string, now: int): Result<seq<Person>>
  {
    if Trim(companyName) == [] then Failure(CompanyNameError)
    else Success(Build(Candidates(results), companyName, idOf, now, 0))
  }

  /** `searchByCompany`: a blank name throws; otherwise the persons built from all
      fulfilled providers' candidates. */
  method SearchByCompany(companyName: string, results: seq<Settled<seq<PartialPerson>>>,
                         idOf: nat -> string, now: int) returns (r: Result<seq<Person>>)
    ensures r == CompanySearch(companyName, results, idOf, now)
    ensures Trim(companyName) == [] ==> r == Failure(CompanyNameError)
    ensures Trim(companyName) != [] ==> r == Success(Build(Candidates(results), companyName, idOf, now, 0))
  {
    if Trim(companyName) == [] {
      return Failure(CompanyNameError);
    }
    var persons: seq<Person> := [];
    var seenCount := 0;
    var i := 0;
    while i < |results|
      invariant 0 <= i <= |results|
      invariant seenCount == |Candidates(results[..i])|
      invariant persons == Build(Candidates(results[..i]), companyName, idOf, now, 0)
    {
      CandidatesSnoc(results, i);
      if results[i].Fulfilled? {
        var list := results[i].value;
        ghost var before := Candidates(results[..i]);
        ghost var seen := before;
        var j := 0;
        while j < |list|
          invariant 0 <= j <= |list|
          invariant seen == before + list[..j]
          invariant seenCount == |seen|
          invariant persons == Build(seen, companyName, idOf, now, 0)
        {
          PrefixSnoc(before, list, j);
          BuildSnoc(seen, list[j], companyName, idOf, now);
          var personData := list[j];
          var kept: seq<Person> := [];
          if Truthy(personData.name) {
            var created := Create(idOf(seenCount), now, CandidateData(personData, companyName));
            if created.Success? {
              kept := [created.value];
            }
          }
          assert kept == Keep(personData, companyName, idOf(seenCount), now);
          persons := persons + kept;
          seen := seen + [personData];
          seenCount := seenCount + 1;
          j := j + 1;
        }
        assert list[..|list|] == list;
      } else {
        assert Candidates(results[..i + 1]) == Candidates(results[..i]);
      }
      i := i + 1;
    }
    assert results[..|results|] == results;
    r := Success(persons);
  }
}
