/** The Clearbit provider (backend/src/infrastructure/providers/ClearbitProvider.ts): each
    lookup consults the circuit breaker, makes the request through the retry interceptor,
    and maps the response body to a partial person. Every caught error, whatever its
    status, is a breaker failure. */
module Clearbit {
  import opened Wrappers
  import opened JsText
  import opened PersonEntity
  import opened Resilience

  /** A name part of the response body: missing, JSON `null`, or a string. */
  datatype NamePart = Missing | Null | Text(text: string)

  /** `person.name` of the combined lookup. */
  datatype ClearbitName = ClearbitName(fullName: NamePart, givenName: NamePart, familyName: NamePart)

  /** `data.person`; `linkedinHandle` is `person.linkedin?.handle`, `twitterHandle` is
      `person.twitter?.handle`. */
  datatype ClearbitPerson = ClearbitPerson(
    name: Option<ClearbitName>,
    email: Option<string>,
    linkedinHandle: Option<string>,
    twitterHandle: Option<string>,
    phone: Option<string>)

  /** `response.data` of the combined lookup; `companyName` is `data.company?.name`. */
  datatype Combined = Combined(person: Option<ClearbitPerson>, companyName: Option<string>)

  /** `response.data` of the company lookup; `domain` is `company?.domain`. */
  datatype CompanyFound = CompanyFound(domain: Option<string>)

  /** A name part in a template literal: a missing one renders as "undefined", a `null`
      one as "null". */
  function Render(p: NamePart): string {
    match p
    case Missing => "undefined"
    case Null => "null"
    case Text(t) => t
  }

  /** A name part as a JavaScript truth value: a non-empty string. */
  predicate PartTruthy(p: NamePart) {
    p.Text? && p.text != ""
  }

  /** `person.name?.fullName || `${person.name?.givenName} ${person.name?.familyName}`.trim()`:
      optional chaining makes every part missing when `person.name` is absent or null. */
  function DisplayName(n: Option<ClearbitName>): (r: string)
    ensures n.Some? && PartTruthy(n.value.fullName) ==> r == n.value.fullName.text
    ensures !(n.Some? && PartTruthy(n.value.fullName)) ==>
              var given := if n.Some? then n.value.givenName else Missing;
              var family := if n.Some? then n.value.familyName else Missing;
              r == Trim(Render(given) + " " + Render(family))
  {
    var full := if n.Some? then n.value.fullName else Missing;
    if PartTruthy(full) then full.text
    else
      var given := if n.Some? then n.value.givenName else Missing;
      var family := if n.Some? then n.value.familyName else Missing;
      Trim(Render(given) + " " + Render(family))
  }

  const LinkedInPrefix := "https://linkedin.com/in/"
  const TwitterPrefix := "https://twitter.com/"

  /** The profile URL for a handle, present only when the handle is truthy. */
  function ProfileUrl(prefix: string, handle: Option<string>): (r: Option<string>)
    ensures r.Some? <==> Truthy(handle)
    ensures r.Some? ==> r.value == prefix + handle.value && StartsWith(r.value, prefix)
  {
    if Truthy(handle) then Some(prefix + handle.value) else None
  }

  /** The mapping of a combined lookup: null without a person; otherwise the display name,
      the person's email and phone, the company name and the two profile URLs. */
  function MapCombined(data: Combined): (r: Option<PartialPerson>)
    ensures r.None? <==> data.person.None?
    ensures r.Some? ==>
              var p := data.person.value;
              && r.value.name == Some(DisplayName(p.name))
              && r.value.email == p.email && r.value.phone == p.phone
              && r.value.company == data.companyName
              && r.value.instagram.None? && r.value.whatsapp.None?
              && r.value.linkedIn == ProfileUrl(LinkedInPrefix, p.linkedinHandle)
              && r.value.twitter == ProfileUrl(TwitterPrefix, p.twitterHandle)
  {
    match data.person
    case None => None
    case Some(p) =>
      Some(PartialPerson(Some(DisplayName(p.name)), p.email, data.companyName, None, None,
                         ProfileUrl(LinkedInPrefix, p.linkedinHandle), ProfileUrl(TwitterPrefix, p.twitterHandle),
                         p.phone))
  }

  /** A person whose name is absent renders as "undefined undefined". */
  lemma NamelessPerson()
    ensures DisplayName(None) == "undefined undefined"
  {
    var s := "undefined undefined";
    assert !IsSpace(s[0]) && !IsSpace(s[|s| - 1]);
    assert TrimStart(s) == s;
  }

  /** A JSON `null` family name renders as "null": "Ana null". */
  lemma NullFamilyName()
    ensures DisplayName(Some(ClearbitName(Null, Text("Ana"), Null))) == "Ana null"
  {
    var s := "Ana" + " " + "null";
    assert s == "Ana null";
    TrimUnspaced(s);
  }

  /** A name whose parts are all JSON `null` renders as "null null". */
  lemma NullNameParts()
    ensures DisplayName(Some(ClearbitName(Null, Null, Null))) == "null null"
  {
    var s := "null" + " " + "null";
    assert s == "null null";
    TrimUnspaced(s);
  }

  class ClearbitProvider {
    const breaker: CircuitBreaker

    constructor()
      ensures fresh(breaker)
      ensures breaker.State() == BreakerState(0, 0)
    {
      breaker := new CircuitBreaker();
    }

    /** `searchByEmail` at clock reading `now`, whose failure (if any) is stamped `later`.
        `data` is `response.data`, `None` when the body is absent. */
    method SearchByEmail(email: string, now: int, later: int, respond: nat -> HttpOutcome<Option<Combined>>)
      returns (r: Option<PartialPerson>, attempts: nat)
      modifies breaker
      ensures OpenAt(old(breaker.State()), now) ==>
                r.None? && attempts == 0 && breaker.State() == old(breaker.State())
      ensures !OpenAt(old(breaker.State()), now) ==>
                var checked := AfterCheck(old(breaker.State()), now);
                var out := FinalOutcome(respond);
                && attempts == Retries(respond) + 1
                && (out.Ok? && out.body.Some? ==>
                      r == MapCombined(out.body.value) && breaker.State() == AfterSuccess(checked))
                && (out.Ok? && out.body.None? ==>
                      r.None? && breaker.State() == AfterFailure(AfterSuccess(checked), later))
                && (out.Err? ==> r.None? && breaker.State() == AfterFailure(checked, later))
    {
      var open := breaker.IsOpen(now);
      if open {
        return None, 0;
      }
      var response, delays := RequestWithRetry(respond);
      attempts := |delays| + 1;
      match response
      case Ok(data) =>
        breaker.OnSuccess();
        if data.None? {
          // Reading `data.person` of an absent body throws inside the try block.
          breaker.OnFailure(later);
          r := None;
        } else {
          r := MapCombined(data.value);
        }
      case Err(_) =>
        // 404, 429 and every other error take the same path.
        breaker.OnFailure(later);
        r := None;
    }

    /** `searchByCompany`: the lookup only feeds the breaker; the answer is always []. */
    method SearchByCompany(companyName: string, now: int, later: int, respond: nat -> HttpOutcome<Option<CompanyFound>>)
      returns (r: seq<PartialPerson>, attempts: nat)
      modifies breaker
      ensures r == []
      ensures OpenAt(old(breaker.State()), now) ==> attempts == 0 && breaker.State() == old(breaker.State())
      ensures !OpenAt(old(breaker.State()), now) ==>
                var checked := AfterCheck(old(breaker.State()), now);
                && attempts == Retries(respond) + 1
                && (FinalOutcome(respond).Ok? ==> breaker.State() == AfterSuccess(checked))
                && (FinalOutcome(respond).Err? ==> breaker.State() == AfterFailure(checked, later))
    {
      var open := breaker.IsOpen(now);
      if open {
        return [], 0;
      }
      var response, delays := RequestWithRetry(respond);
      attempts := |delays| + 1;
      if response.Ok? {
        breaker.OnSuccess();
        // With or without `company?.domain` the employees are not looked up.
        r := [];
      } else {
        breaker.OnFailure(later);
        r := [];
      }
    }

    /** `searchByName`: not supported by the service. */
    method SearchByName(name: string) returns (r: seq<PartialPerson>)
      ensures r == []
    {
      r := [];
    }
  }
}
