/** The Hunter.io provider (backend/src/infrastructure/providers/HunterProvider.ts): the
    same circuit breaker and retry rule as Clearbit, the email verifier that only answers
    for deliverable addresses, and the domain search whose email list becomes candidates. */
module Hunter {
  import opened Wrappers
  import opened JsText
  import opened PersonEntity
  import opened Resilience

  /** `response.data.data` of the email verifier. */
  datatype Verification = Verification(
    result: Option<string>, email: Option<string>, firstName: Option<string>, lastName: Option<string>)

  /** One entry of `data.data.emails` of the domain search. */
  datatype EmailEntry = EmailEntry(value: Option<string>, firstName: Option<string>, lastName: Option<string>)

  /** `response.data.data` of the domain search. */
  datatype DomainData = DomainData(emails: Option<seq<EmailEntry>>)

  /** `${first} ${last}`, defined only when both are truthy. */
  function FullName(first: Option<string>, last: Option<string>): (r: Option<string>)
    ensures r.Some? <==> Truthy(first) && Truthy(last)
    ensures r.Some? ==> r.value == first.value + " " + last.value
  {
    if Truthy(first) && Truthy(last) then Some(first.value + " " + last.value) else None
  }

  /** The mapping of a verification: null unless the result is exactly "deliverable";
      otherwise the email, plus a name when both name parts are truthy. */
  function MapVerification(d: Verification): (r: Option<PartialPerson>)
    ensures r.Some? <==> d.result == Some("deliverable")
    ensures r.Some? ==> r.value == EmptyPartial.(email := d.email, name := FullName(d.firstName, d.lastName))
  {
    if d.result != Some("deliverable") then None
    else Some(EmptyPartial.(email := d.email, name := FullName(d.firstName, d.lastName)))
  }

  /** The candidate one email entry yields, if any. */
  function EntryCandidate(e: EmailEntry, companyName: string): seq<PartialPerson> {
    match FullName(e.firstName, e.lastName)
    case None => []
    case Some(name) => [EmptyPartial.(name := Some(name), email := e.value, company := Some(companyName))]
  }

  /** The candidates of the email list, in list order. */
  function EntryCandidates(es: seq<EmailEntry>, companyName: string): seq<PartialPerson> {
    if es == [] then [] else EntryCandidates(es[..|es| - 1], companyName) + EntryCandidate(es[|es| - 1], companyName)
  }

  /** Every candidate carries "first last" of an entry with both names, that entry's email
      and the query as company; there are as many as such entries. */
  lemma {:induction false} EntryCandidatesShape(es: seq<EmailEntry>, companyName: string)
    ensures |EntryCandidates(es, companyName)| <= |es|
    ensures (forall i :: 0 <= i < |es| ==> Truthy(es[i].firstName) && Truthy(es[i].lastName))
            ==> |EntryCandidates(es, companyName)| == |es|
    ensures forall c :: c in EntryCandidates(es, companyName) ==>
              c.company == Some(companyName)
              && exists i :: 0 <= i < |es| && Truthy(es[i].firstName) && Truthy(es[i].lastName)
                             && c.name == Some(es[i].firstName.value + " " + es[i].lastName.value)
                             && c.email == es[i].value
  {
    if es != [] {
      var init := es[..|es| - 1];
      EntryCandidatesShape(init, companyName);
      forall c | c in EntryCandidates(es, companyName)
        ensures c.company == Some(companyName)
              && exists i :: 0 <= i < |es| && Truthy(es[i].firstName) && Truthy(es[i].lastName)
                             && c.name == Some(es[i].firstName.value + " " + es[i].lastName.value)
                             && c.email == es[i].value
      {
        if c in EntryCandidates(init, companyName) {
          var i :| 0 <= i < |init| && Truthy(init[i].firstName) && Truthy(init[i].lastName)
                   && c.name == Some(init[i].firstName.value + " " + init[i].lastName.value)
                   && c.email == init[i].value;
          assert init[i] == es[i];
        } else {
          assert c in EntryCandidate(es[|es| - 1], companyName);
        }
      }
    }
  }

  class HunterProvider {
    const breaker: CircuitBreaker

    constructor()
      ensures fresh(breaker)
      ensures breaker.State() == BreakerState(0, 0)
    {
      breaker := new CircuitBreaker();
    }

    /** `searchByEmail` at clock reading `now`, whose failure (if any) is stamped `later`.
        The body is `response.data.data`, `None` when absent. */
    method SearchByEmail(email: string, now: int, later: int, respond: nat -> HttpOutcome<Option<Verification>>)
      returns (r: Option<PartialPerson>, attempts: nat)
      modifies breaker
      ensures OpenAt(old(breaker.State()), now) ==>
                r.None? && attempts == 0 && breaker.State() == old(breaker.State())
      ensures !OpenAt(old(breaker.State()), now) ==>
                var checked := AfterCheck(old(breaker.State()), now);
                var out := FinalOutcome(respond);
                && attempts == Retries(respond) + 1
                && (out.Ok? && out.body.Some? ==>
                      r == MapVerification(out.body.value) && breaker.State() == AfterSuccess(checked))
                && (out.Ok? && out.body.None? ==>
                      r.None? && breaker.State() == AfterFailure(AfterSuccess(checked), later))
                && (out.Err? ==> r.None? && breaker.State() == AfterFailure(checked, later))
    {
      var open := breaker.IsOpen(now);
      if open {
        return None, 0;
      }
      var response, delays := RequestWithRetry(respond);
      attempts := |delays| + 1;
      match response
      case Ok(data) =>
        breaker.OnSuccess();
        if data.None? {
          // Reading `data.result` of an absent body throws inside the try block.
          breaker.OnFailure(later);
          r := None;
        } else {
          r := MapVerification(data.value);
        }
      case Err(_) =>
        // 404 and every other error take the same path.
        breaker.OnFailure(later);
        r := None;
    }

    /** `searchByCompany`: one candidate per email entry with both names, in order. */
    method SearchByCompany(companyName: string, now: int, later: int, respond: nat -> HttpOutcome<Option<DomainData>>)
      returns (persons: seq<PartialPerson>, attempts: nat)
      modifies breaker
      ensures OpenAt(old(breaker.State()), now) ==>
                persons == [] && attempts == 0 && breaker.State() == old(breaker.State())
      ensures !OpenAt(old(breaker.State()), now) ==>
                var checked := AfterCheck(old(breaker.State()), now);
                var out := FinalOutcome(respond);
                && attempts == Retries(respond) + 1
                && (out.Ok? && out.body.Some? ==>
                      && persons == EntryCandidates(out.body.value.emails.GetOr([]), companyName)
                      && breaker.State() == AfterSuccess(checked))
                && (out.Ok? && out.body.None? ==>
                      persons == [] && breaker.State() == AfterFailure(AfterSuccess(checked), later))
                && (out.Err? ==> persons == [] && breaker.State() == AfterFailure(checked, later))
    {
      var open := breaker.IsOpen(now);
      if open {
        return [], 0;
      }
      var response, delays := RequestWithRetry(respond);
      attempts := |delays| + 1;
      persons := [];
      if response.Err? {
        breaker.OnFailure(later);
        return;
      }
      breaker.OnSuccess();
      if response.body.None? {
        // Reading `.emails` of an absent `data.data` throws inside the try block.
        breaker.OnFailure(later);
        return;
      }
      var emails := response.body.value.emails;
      if emails.None? || |emails.value| == 0 {
        return;
      }
      var list := emails.value;
      var i := 0;
      while i < |list|
        invariant 0 <= i <= |list|
        invariant persons == EntryCandidates(list[..i], companyName)
      {
        assert list[..i + 1][..i] == list[..i];
        var emailData := list[i];
        if Truthy(emailData.firstName) && Truthy(emailData.lastName) {
          persons := persons + [EmptyPartial.(name := Some(emailData.firstName.value + " " + emailData.lastName.value),
                                              email := emailData.value, company := Some(companyName))];
        }
        i := i + 1;
      }
      assert list[..i] == list;
    }

    /** `searchByName`: not supported by the service. */
    method SearchByName(name: string) returns (r: seq<PartialPerson>)
      ensures r == []
    {
      r := [];
    }
  }
}
