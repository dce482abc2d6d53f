/** The Person entity (backend/src/domain/entities/Person.ts): the record, its two
    regular-expression validators, the `create` factory that throws on a bad email or
    phone, the two derived flags and the JSON view. The generated id and the clock
    reading `new Date()` are parameters. */
module PersonEntity {
  import opened Wrappers
  import opened JsText

  /** An optional string field is truthy in JavaScript iff it is present and non-empty. */
  predicate Truthy(o: Option<string>) { o.Some? && o.value != "" }

  /** `a || b` on two optional strings. */
  function Or(a: Option<string>, b: Option<string>): (r: Option<string>)
    ensures Truthy(a) ==> r == a
    ensures !Truthy(a) ==> r == b
  {
    if Truthy(a) then a else b
  }

  /** `...(x && { field: x })`: the field is passed on only when truthy. */
  function IfTruthy(o: Option<string>): (r: Option<string>)
    ensures Truthy(o) ==> r == o
    ensures !Truthy(o) ==> r == None
  {
    if Truthy(o) then o else None
  }

  /** A stored person; times are milliseconds since the epoch. */
  datatype Person = Person(
    id: string,
    name: string,
    email: Option<string>,
    company: Option<string>,
    instagram: Option<string>,
    whatsapp: Option<string>,
    linkedIn: Option<string>,
    twitter: Option<string>,
    phone: Option<string>,
    createdAt: int,
    updatedAt: int)

  /** The argument object of `Person.create`. */
  datatype PersonData = PersonData(
    name: string,
    email: Option<string>,
    company: Option<string>,
    instagram: Option<string>,
    whatsapp: Option<string>,
    linkedIn: Option<string>,
    twitter: Option<string>,
    phone: Option<string>)

  /** `Partial<Person>`: the unit a provider returns; every field may be missing. */
  datatype PartialPerson = PartialPerson(
    name: Option<string>,
    email: Option<string>,
    company: Option<string>,
    instagram: Option<string>,
    whatsapp: Option<string>,
    linkedIn: Option<string>,
    twitter: Option<string>,
    phone: Option<string>)

  const EmptyPartial := PartialPerson(None, None, None, None, None, None, None, None)

  // ---------------------------------------------------------------- email

  predicate EmailChar(c: char) { !IsSpace(c) && c != '@' }
  predicate AllEmailChars(s: string) { forall i :: 0 <= i < |s| ==> EmailChar(s[i]) }

  /** The language of `/^[^\s@]+@[^\s@]+\.[^\s@]+$/`: an '@' at `a` and a '.' at `b`
      cut the string into three non-empty runs free of whitespace and '@'. */
  ghost predicate EmailPattern(s: string) {
    exists a: nat, b: nat | 0 < a && a + 1 < b && b + 1 < |s| ::
      s[a] == '@' && s[b] == '.'
      && AllEmailChars(s[..a]) && AllEmailChars(s[a + 1..b]) && AllEmailChars(s[b + 1..])
  }

  /** `Person.validateEmail`: no whitespace anywhere, exactly one '@' with a non-empty
      local part before it, and a '.' in the domain that is neither its first nor its
      last character. */
  predicate ValidateEmail(s: string) {
    var k := IndexOf(s, '@');
    && k > 0
    && NoSpace(s)
    && (forall i :: k < i < |s| ==> s[i] != '@')
    && exists j :: k + 1 < j < |s| - 1 && s[j] == '.'
  }

  /** The validator accepts exactly the language of the regular expression. */
  lemma ValidateEmailIsPattern(s: string)
    ensures ValidateEmail(s) <==> EmailPattern(s)
  {
    if ValidateEmail(s) {
      ValidEmailMatches(s);
    }
    if EmailPattern(s) {
      MatchingEmailValid(s);
    }
  }

  lemma ValidEmailMatches(s: string)
    requires ValidateEmail(s)
    ensures EmailPattern(s)
  {
    var a := IndexOf(s, '@');
    var b :| a + 1 < b < |s| - 1 && s[b] == '.';
    assert AllEmailChars(s[..a]);
    assert AllEmailChars(s[a + 1..b]);
    assert AllEmailChars(s[b + 1..]);
  }

  lemma MatchingEmailValid(s: string)
    requires EmailPattern(s)
    ensures ValidateEmail(s)
  {
    var a: nat, b: nat :| 0 < a && a + 1 < b && b + 1 < |s| && s[a] == '@' && s[b] == '.'
      && AllEmailChars(s[..a]) && AllEmailChars(s[a + 1..b]) && AllEmailChars(s[b + 1..]);
    forall i | 0 <= i < a ensures s[i] != '@' && !IsSpace(s[i]) {
      assert s[..a][i] == s[i];
    }
    forall i | a < i < |s| ensures s[i] != '@' && !IsSpace(s[i]) {
      if i < b { assert s[a + 1..b][i - a - 1] == s[i]; }
      else if i > b { assert s[b + 1..][i - b - 1] == s[i]; }
    }
    assert IndexOf(s, '@') == a;
  }

  // ---------------------------------------------------------------- phone

  predicate PhoneChar(c: char) { IsDigit(c) || IsSpace(c) || c == '-' || c == '(' || c == ')' }
  predicate AllPhoneChars(s: string) { forall i :: 0 <= i < |s| ==> PhoneChar(s[i]) }

  /** The language of `/^\+?[\d\s\-\(\)]+$/`: an optional '+' of length `k` and then
      one or more digits, whitespace, '-', '(' or ')'. */
  ghost predicate PhonePattern(s: string) {
    exists k: nat | k <= 1 && k < |s| :: s[..k] == "+"[..k] && AllPhoneChars(s[k..])
  }

  /** `Person.validatePhone`: every character is a phone character except that the first
      may be '+', and the whole string, '+' included, has at least 10 characters. */
  predicate ValidatePhone(s: string) {
    |s| >= 10 && forall i :: 0 <= i < |s| ==> PhoneChar(s[i]) || (i == 0 && s[i] == '+')
  }

  /** The validator is the regular expression plus the length test. */
  lemma ValidatePhoneIsPattern(s: string)
    ensures ValidatePhone(s) <==> PhonePattern(s) && |s| >= 10
  {
    if ValidatePhone(s) {
      if s[0] == '+' {
        assert s[..1] == "+"[..1];
        assert AllPhoneChars(s[1..]) by {
          forall i | 0 <= i < |s[1..]| ensures PhoneChar(s[1..][i]) {
            assert s[1..][i] == s[i + 1];
          }
        }
      } else {
        assert s[..0] == "+"[..0];
        assert s[0..] == s;
      }
    }
    if PhonePattern(s) && |s| >= 10 {
      var k: nat :| k <= 1 && k < |s| && s[..k] == "+"[..k] && AllPhoneChars(s[k..]);
      forall i | 0 <= i < |s| ensures PhoneChar(s[i]) || (i == 0 && s[i] == '+') {
        if i >= k { assert s[k..][i - k] == s[i]; }
        else { assert s[..k][i] == s[i]; }
      }
    }
  }

  // ---------------------------------------------------------------- factory

  const EmailError := "Email inválido"
  const PhoneError := "Telefone inválido"

  /** The email check of `create` passes: absent or empty, or valid. */
  predicate EmailAccepted(email: Option<string>) { !Truthy(email) || ValidateEmail(email.value) }
  /** The phone check of `create` passes: absent or empty, or valid. */
  predicate PhoneAccepted(phone: Option<string>) { !Truthy(phone) || ValidatePhone(phone.value) }

  /** Every field of `data` is stored unchanged in `p`, which carries `id` and the clock reading `now`. */
  predicate Stores(p: Person, id: string, now: int, data: PersonData) {
    && p.id == id && p.name == data.name && p.email == data.email && p.company == data.company
    && p.instagram == data.instagram && p.whatsapp == data.whatsapp && p.linkedIn == data.linkedIn
    && p.twitter == data.twitter && p.phone == data.phone && p.createdAt == now && p.updatedAt == now
  }

  /** `Person.create`: the email is checked first, then the phone; the other fields are
      never checked. */
  function Create(id: string, now: int, data: PersonData): (r: Result<Person>)
    ensures r == Failure(EmailError) <==> !EmailAccepted(data.email)
    ensures r == Failure(PhoneError) <==> EmailAccepted(data.email) && !PhoneAccepted(data.phone)
    ensures r.Success? <==> EmailAccepted(data.email) && PhoneAccepted(data.phone)
    ensures r.Success? ==> Stores(r.value, id, now, data)
  {
    if Truthy(data.email) && !ValidateEmail(data.email.value) then Failure(EmailError)
    else if Truthy(data.phone) && !ValidatePhone(data.phone.value) then Failure(PhoneError)
    else Success(Person(id, data.name, data.email, data.company, data.instagram, data.whatsapp,
                        data.linkedIn, data.twitter, data.phone, now, now))
  }

  /** Whether `create` succeeds does not depend on instagram, whatsapp, linkedIn, twitter,
      company or name: those are never validated. */
  lemma CreateIgnoresUncheckedFields(id: string, now: int, data: PersonData, other: PersonData)
    requires other.email == data.email && other.phone == data.phone
    ensures Create(id, now, data).Success? == Create(id, now, other).Success?
    ensures Create(id, now, data).Failure? ==> Create(id, now, other) == Create(id, now, data)
  {
  }

  // ---------------------------------------------------------------- queries

  /** `hasContactInfo`. */
  predicate HasContactInfo(p: Person) { Truthy(p.whatsapp) || Truthy(p.phone) || Truthy(p.email) }

  /** `hasSocialMedia`. */
  predicate HasSocialMedia(p: Person) { Truthy(p.instagram) || Truthy(p.linkedIn) || Truthy(p.twitter) }

  /** A created person has contact information iff one of whatsapp, phone or email was
      supplied non-empty, and social media iff one of instagram, linkedIn or twitter was. */
  lemma CreatedFlags(id: string, now: int, data: PersonData)
    requires Create(id, now, data).Success?
    ensures HasContactInfo(Create(id, now, data).value)
            <==> Truthy(data.whatsapp) || Truthy(data.phone) || Truthy(data.email)
    ensures HasSocialMedia(Create(id, now, data).value)
            <==> Truthy(data.instagram) || Truthy(data.linkedIn) || Truthy(data.twitter)
  {
  }

  /** The object `toJSON` returns. */
  datatype PersonJson = PersonJson(
    id: string, name: string, email: Option<string>, company: Option<string>,
    instagram: Option<string>, whatsapp: Option<string>, linkedIn: Option<string>,
    twitter: Option<string>, phone: Option<string>,
    hasContactInfo: bool, hasSocialMedia: bool, createdAt: int, updatedAt: int)

  /** `toJSON`: the stored fields and the two derived flags. */
  function ToJson(p: Person): (j: PersonJson)
    ensures j.id == p.id && j.name == p.name && j.email == p.email && j.company == p.company
    ensures j.instagram == p.instagram && j.whatsapp == p.whatsapp && j.linkedIn == p.linkedIn
    ensures j.twitter == p.twitter && j.phone == p.phone
    ensures j.createdAt == p.createdAt && j.updatedAt == p.updatedAt
    ensures j.hasContactInfo == HasContactInfo(p) && j.hasSocialMedia == HasSocialMedia(p)
  {
    PersonJson(p.id, p.name, p.email, p.company, p.instagram, p.whatsapp, p.linkedIn,
               p.twitter, p.phone, HasContactInfo(p), HasSocialMedia(p), p.createdAt, p.updatedAt)
  }
}
