/** The Company entity (backend/src/domain/entities/Company.ts): the domain validator,
    the `create` factory that throws on a bad domain, `getEmailDomain` and `toJSON`. */
module CompanyEntity {
  import opened Wrappers
  import opened JsText

  datatype Company = Company(
    id: string,
    name: string,
    domain: string,
    website: Option<string>,
    industry: Option<string>,
    size: Option<string>,
    location: Option<string>,
    createdAt: int,
    updatedAt: int)

  /** The argument object of `Company.create`. */
  datatype CompanyData = CompanyData(
    name: string,
    domain: string,
    website: Option<string>,
    industry: Option<string>,
    size: Option<string>,
    location: Option<string>)

  predicate LabelChar(c: char) { IsAlnum(c) || c == '-' }

  /** The language of `[a-zA-Z0-9][a-zA-Z0-9-]{0,61}[a-zA-Z0-9]?`: one letter or digit,
      `m` letters, digits or '-' with `m <= 61`, and `o <= 1` final letters or digits. */
  ghost predicate LabelPattern(l: string) {
    exists m: nat | m <= 61 :: LabelSplit(l, m)
  }

  /** `l` is the first character, `m` middle characters and `|l| - 1 - m` (0 or 1) final
      characters of the label expression. */
  ghost predicate LabelSplit(l: string, m: nat) {
    && 1 + m <= |l| <= 2 + m
    && IsAlnum(l[0])
    && (forall i :: 1 <= i < 1 + m ==> LabelChar(l[i]))
    && (|l| == 2 + m ==> IsAlnum(l[|l| - 1]))
  }

  /** The language of `[a-zA-Z]{2,}`. */
  predicate ValidTld(t: string) { |t| >= 2 && forall i :: 0 <= i < |t| ==> IsLetter(t[i]) }

  /** The language of the whole domain expression: a label, a '.', a top-level domain. */
  ghost predicate DomainPattern(d: string) {
    exists k | 0 < k < |d| :: d[k] == '.' && LabelPattern(d[..k]) && ValidTld(d[k + 1..])
  }

  /** The label the expression accepts: 1 to 63 letters, digits or '-', starting with a
      letter or digit; a 63-character label must also end with a letter or digit. */
  predicate ValidLabel(l: string) {
    && 1 <= |l| <= 63
    && IsAlnum(l[0])
    && (forall i :: 0 <= i < |l| ==> LabelChar(l[i]))
    && (|l| == 63 ==> IsAlnum(l[62]))
  }

  lemma ValidLabelIsPattern(l: string)
    ensures ValidLabel(l) <==> LabelPattern(l)
  {
    if ValidLabel(l) {
      var m: nat := if |l| <= 62 then |l| - 1 else 61;
      assert LabelSplit(l, m);
    }
    if LabelPattern(l) {
      var m: nat :| m <= 61 && LabelSplit(l, m);
      forall i | 0 <= i < |l| ensures LabelChar(l[i]) {
        if i >= 1 + m { assert i == |l| - 1; }
      }
    }
  }

  /** `Company.validateDomain`: the text before the first '.' is a valid label and the
      text after it is a top-level domain of two or more letters. */
  predicate ValidateDomain(d: string) {
    var k := IndexOf(d, '.');
    k > 0 && ValidLabel(d[..k]) && ValidTld(d[k + 1..])
  }

  /** The validator accepts exactly the language of the regular expression. */
  lemma ValidateDomainIsPattern(d: string)
    ensures ValidateDomain(d) <==> DomainPattern(d)
  {
    if ValidateDomain(d) {
      ValidLabelIsPattern(d[..IndexOf(d, '.')]);
    }
    if DomainPattern(d) {
      var k :| 0 < k < |d| && d[k] == '.' && LabelPattern(d[..k]) && ValidTld(d[k + 1..]);
      ValidLabelIsPattern(d[..k]);
      forall j | 0 <= j < k ensures d[j] != '.' {
        assert d[..k][j] == d[j];
      }
      assert IndexOf(d, '.') == k;
    }
  }

  /** An accepted domain has exactly one '.', so "x.com.br" is rejected. */
  lemma ValidDomainHasOneDot(d: string)
    requires ValidateDomain(d)
    ensures exists k :: 0 <= k < |d| && d[k] == '.'
    ensures forall i, j :: 0 <= i < |d| && 0 <= j < |d| && d[i] == '.' && d[j] == '.' ==> i == j
  {
    var k := IndexOf(d, '.');
    var t := d[k + 1..];
    forall i | k < i < |d| ensures d[i] != '.' {
      assert t[i - k - 1] == d[i];
      assert IsLetter(t[i - k - 1]);
    }
  }

  lemma TwoLevelDomainRejected()
    ensures !ValidateDomain("x.com.br")
  {
    var d := "x.com.br";
    assert d[0] != '.' && d[1] == '.';
    assert IndexOf(d, '.') == 1;
    assert d[2..][3] == '.';
  }

  const DomainError := "Domínio da empresa inválido"

  /** Every field of `data` is stored unchanged in `c`. */
  predicate Stores(c: Company, id: string, now: int, data: CompanyData) {
    && c.id == id && c.name == data.name && c.domain == data.domain && c.website == data.website
    && c.industry == data.industry && c.size == data.size && c.location == data.location
    && c.createdAt == now && c.updatedAt == now
  }

  /** `Company.create`. */
  function Create(id: string, now: int, data: CompanyData): (r: Result<Company>)
    ensures r.Failure? <==> !ValidateDomain(data.domain)
    ensures r.Failure? ==> r.error == DomainError
    ensures r.Success? ==> Stores(r.value, id, now, data)
  {
    if !ValidateDomain(data.domain) then Failure(DomainError)
    else Success(Company(id, data.name, data.domain, data.website, data.industry, data.size,
                         data.location, now, now))
  }

  /** `getEmailDomain`. */
  function GetEmailDomain(c: Company): string { c.domain }

  /** A created company reports the domain it was created with, which is valid. */
  lemma CreatedEmailDomain(id: string, now: int, data: CompanyData)
    requires Create(id, now, data).Success?
    ensures GetEmailDomain(Create(id, now, data).value) == data.domain
    ensures ValidateDomain(GetEmailDomain(Create(id, now, data).value))
  {
  }

  datatype CompanyJson = CompanyJson(
    id: string, name: string, domain: string, website: Option<string>, industry: Option<string>,
    size: Option<string>, location: Option<string>, createdAt: int, updatedAt: int)

  /** `toJSON`: exactly the stored fields. */
  function ToJson(c: Company): (j: CompanyJson)
    ensures j.id == c.id && j.name == c.name && j.domain == c.domain && j.website == c.website
    ensures j.industry == c.industry && j.size == c.size && j.location == c.location
    ensures j.createdAt == c.createdAt && j.updatedAt == c.updatedAt
  {
    CompanyJson(c.id, c.name, c.domain, c.website, c.industry, c.size, c.location,
                c.createdAt, c.updatedAt)
  }
}
