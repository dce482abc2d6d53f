/** The development provider (backend/src/infrastructure/providers/MockProvider.ts): three
    fixed records looked up by email, company and name, with generated stand-ins when
    nothing is found. `Math.random()` is a parameter `u` with 0 <= u < 1. */
module Mock {
  import opened Wrappers
  import opened JsText
  import opened PersonEntity

  /** One entry of `mockData`: name, email and company are always present. */
  datatype MockRecord = MockRecord(
    name: string, email: string, company: string,
    instagram: Option<string>, whatsapp: Option<string>, linkedIn: Option<string>,
    twitter: Option<string>, phone: Option<string>)

  function AsPartial(m: MockRecord): PartialPerson {
    PartialPerson(Some(m.name), Some(m.email), Some(m.company), m.instagram, m.whatsapp, m.linkedIn, m.twitter, m.phone)
  }

  const MockData: seq<MockRecord> := [
    MockRecord("Matheus Gomes", "matheus.gomes@elroma.com.br", "Elroma", Some("matheus_gomes_dev"),
               Some("+5511999887766"), Some("https://linkedin.com/in/matheus-gomes-dev"),
               Some("https://twitter.com/matheus_dev"), Some("+5511999887766")),
    MockRecord("Ana Silva", "ana.silva@elroma.com.br", "Elroma", Some("ana_silva_design"),
               Some("+5511888776655"), Some("https://linkedin.com/in/ana-silva-design"), None, None),
    MockRecord("Jo\U{E3}o Santos", "joao.santos@techcorp.com", "TechCorp", Some("joao_tech"),
               Some("+5511777665544"), None, None, Some("+5511777665544"))
  ]

  // ------------------------------------------------------------ lookups

  predicate EmailIs(m: MockRecord, email: string) { ToLower(m.email) == ToLower(email) }

  /** `data.find(...)` on the email, ignoring case. */
  function FindByEmail(data: seq<MockRecord>, email: string): Option<MockRecord> {
    if data == [] then None
    else if EmailIs(data[0], email) then Some(data[0])
    else FindByEmail(data[1..], email)
  }

  /** The lookup finds the first record whose email equals the query ignoring case, and
      finds nothing only when there is none. */
  lemma {:induction false} FindByEmailIsFirst(data: seq<MockRecord>, email: string)
    ensures FindByEmail(data, email).None? <==> forall i :: 0 <= i < |data| ==> !EmailIs(data[i], email)
    ensures FindByEmail(data, email).Some? ==>
              exists i :: 0 <= i < |data| && FindByEmail(data, email) == Some(data[i]) && EmailIs(data[i], email)
                          && forall j :: 0 <= j < i ==> !EmailIs(data[j], email)
  {
    if data != [] && !EmailIs(data[0], email) {
      FindByEmailIsFirst(data[1..], email);
      if FindByEmail(data, email).Some? {
        var i :| 0 <= i < |data[1..]| && FindByEmail(data[1..], email) == Some(data[1..][i])
                 && EmailIs(data[1..][i], email) && forall j :: 0 <= j < i ==> !EmailIs(data[1..][j], email);
        forall j | 0 <= j < i + 1 ensures !EmailIs(data[j], email) {
          if j > 0 { assert data[j] == data[1..][j - 1]; }
        }
        assert data[i + 1] == data[1..][i];
      } else {
        forall i | 0 <= i < |data| ensures !EmailIs(data[i], email) {
          if i > 0 { assert data[i] == data[1..][i - 1]; }
        }
      }
    }
  }

  predicate CompanyHas(m: MockRecord, q: string) { Contains(ToLower(m.company), ToLower(q)) }
  predicate NameHas(m: MockRecord, q: string) { Contains(ToLower(m.name), ToLower(q)) }

  /** `data.filter(...)` on the company, ignoring case. */
  function ByCompany(data: seq<MockRecord>, q: string): seq<MockRecord> {
    if data == [] then []
    else ByCompany(data[..|data| - 1], q) + (if CompanyHas(data[|data| - 1], q) then [data[|data| - 1]] else [])
  }

  /** `data.filter(...)` on the name, ignoring case. */
  function ByName(data: seq<MockRecord>, q: string): seq<MockRecord> {
    if data == [] then []
    else ByName(data[..|data| - 1], q) + (if NameHas(data[|data| - 1], q) then [data[|data| - 1]] else [])
  }

  /** The company filter keeps exactly the matching records, in order. */
  lemma {:induction false} ByCompanyMembers(data: seq<MockRecord>, q: string)
    ensures forall m :: m in ByCompany(data, q) <==> m in data && CompanyHas(m, q)
    ensures |ByCompany(data, q)| <= |data|
  {
    if data != [] {
      ByCompanyMembers(data[..|data| - 1], q);
      assert data == data[..|data| - 1] + [data[|data| - 1]];
    }
  }

  /** The name filter keeps exactly the matching records, in order. */
  lemma {:induction false} ByNameMembers(data: seq<MockRecord>, q: string)
    ensures forall m :: m in ByName(data, q) <==> m in data && NameHas(m, q)
    ensures |ByName(data, q)| <= |data|
  {
    if data != [] {
      ByNameMembers(data[..|data| - 1], q);
      assert data == data[..|data| - 1] + [data[|data| - 1]];
    }
  }

  // ------------------------------------------------------------ generated stand-ins

  /** `s.replace(/\b\w/g, l => l.toUpperCase())`: every word character that starts a run
      of word characters is upper-cased. `\w` is [A-Za-z0-9_], so a letter such as 'ã'
      ends a run. */
  function UpperWordStarts(s: string): (r: string)
    ensures |r| == |s|
    ensures forall i :: 0 <= i < |s| ==>
              r[i] == if IsWordChar(s[i]) && (i == 0 || !IsWordChar(s[i - 1])) then UpperChar(s[i]) else s[i]
  {
    seq(|s|, i requires 0 <= i < |s| => if IsWordChar(s[i]) && (i == 0 || !IsWordChar(s[i - 1])) then UpperChar(s[i]) else s[i])
  }

  /** The letter after a non-ASCII letter starts a new word: "joão" becomes "JoãO". */
  lemma AccentSplitsWord()
    ensures UpperWordStarts("jo\U{E3}o") == "Jo\U{E3}O"
  {
    var s := "jo\U{E3}o";
    assert IsWordChar(s[0]) && IsWordChar(s[1]) && !IsWordChar(s[2]) && IsWordChar(s[3]);
    assert UpperChar('j') == 'J' && UpperChar('o') == 'O';
  }

  function DotOrUnderscoreToSpace(c: char): char { if c == '.' || c == '_' then ' ' else c }

  /** The name generated from an email's local part: '.' and '_' become spaces and each
      word is capitalised. */
  function MockName(emailPart: string): (r: string)
    ensures |r| == |emailPart|
    ensures forall i :: 0 <= i < |emailPart| && (emailPart[i] == '.' || emailPart[i] == '_') ==> r[i] == ' '
  {
    UpperWordStarts(MapChars(emailPart, DotOrUnderscoreToSpace))
  }

  const UnknownCompany := "Unknown Company"

  /** The company generated from a domain: its first label, capitalised, or "Unknown Company"
      when that label is empty. */
  function MockCompany(domain: string): (r: string)
    ensures FirstPiece(domain, '.') == "" ==> r == UnknownCompany
    ensures FirstPiece(domain, '.') != "" ==> r == UpperWordStarts(FirstPiece(domain, '.'))
  {
    var capitalised := UpperWordStarts(FirstPiece(domain, '.'));
    if capitalised == "" then UnknownCompany else capitalised
  }

  function SpaceToUnderscore(c: char): char { if IsSpace(c) then '_' else c }

  /** The instagram handle generated from a name: lower-cased, whitespace turned into '_',
      then "_insta". */
  function MockInstagram(name: string): (r: string)
    ensures |r| == |name| + 6 && EndsWith(r, "_insta")
    ensures NoSpace(r)
  {
    var r := MapChars(ToLower(name), SpaceToUnderscore) + "_insta";
    assert r[|r| - 6..] == "_insta";
    r
  }

  function Pow10(n: nat): (r: nat)
    ensures r >= 1
  {
    if n == 0 then 1 else 10 * Pow10(n - 1)
  }

  /** A number with `k` digits is written with `k` characters. */
  lemma {:induction false} NatToStringLength(n: nat, k: nat)
    requires k >= 1 && Pow10(k - 1) <= n < Pow10(k)
    ensures |NatToString(n)| == k
  {
    if k > 1 {
      NatToStringLength(n / 10, k - 1);
    }
  }

  /** `Math.floor(Math.random() * 900000000 + 100000000)`, a nine-digit number. */
  function RandomNineDigits(u: real): (n: nat)
    requires 0.0 <= u < 1.0
    ensures 100000000 <= n <= 999999999
  {
    var x := u * 900000000.0 + 100000000.0;
    x.Floor
  }

  /** The generated whatsapp number "+5511" followed by the nine random digits. */
  function MockWhatsapp(u: real): (r: string)
    requires 0.0 <= u < 1.0
    ensures |r| == 14 && r[..5] == "+5511"
    ensures forall i :: 5 <= i < |r| ==> IsDigit(r[i])
  {
    var n := RandomNineDigits(u);
    assert Pow10(8) == 100000000 && Pow10(9) == 1000000000;
    NatToStringLength(n, 9);
    "+5511" + NatToString(n)
  }

  /** Every generated whatsapp number passes `Person.validatePhone`. */
  lemma MockWhatsappIsPhone(u: real)
    requires 0.0 <= u < 1.0
    ensures ValidatePhone(MockWhatsapp(u))
  {
    var r := MockWhatsapp(u);
    assert forall i :: 1 <= i < 5 ==> IsDigit(r[i]) by {
      assert r[..5] == "+5511";
      forall i | 1 <= i < 5 ensures IsDigit(r[i]) { assert r[i] == r[..5][i]; }
    }
    assert r[0] == r[..5][0];
  }

  // ------------------------------------------------------------ provider operations

  /** The stand-in for an unknown email: null when the text before the first '@' or the
      text between it and the next '@' is empty; otherwise a person named after the local
      part, with the domain's company, a derived instagram handle and a random whatsapp. */
  function StandIn(email: string, u: real): (r: Option<PartialPerson>)
    requires 0.0 <= u < 1.0
    ensures var a := IndexOf(email, '@');
            && (r.None? <==> a <= 0 || a + 1 == |email| || email[a + 1] == '@')
            && (r.Some? ==>
                  var name := MockName(email[..a]);
                  r.value == EmptyPartial.(name := Some(name), email := Some(email),
                                           company := Some(MockCompany(FirstPiece(email[a + 1..], '@'))),
                                           instagram := Some(MockInstagram(name)), whatsapp := Some(MockWhatsapp(u))))
  {
    var parts := Split(email, '@');
    SplitHead(email, '@');
    SplitSecond(email, '@');
    var domain := if |parts| > 1 then parts[1] else "";
    var emailPart := parts[0];
    if emailPart == "" || domain == "" then None
    else
      var name := MockName(emailPart);
      Some(EmptyPartial.(name := Some(name), email := Some(email), company := Some(MockCompany(domain)),
                         instagram := Some(MockInstagram(name)), whatsapp := Some(MockWhatsapp(u))))
  }

  /** `searchByEmail`: the stored record when one has this email ignoring case, the
      stand-in otherwise. */
  function SearchByEmail(email: string, u: real): (r: Option<PartialPerson>)
    requires 0.0 <= u < 1.0
    ensures FindByEmail(MockData, email).Some? ==> r == Some(AsPartial(FindByEmail(MockData, email).value))
    ensures FindByEmail(MockData, email).None? ==> r == StandIn(email, u)
  {
    match FindByEmail(MockData, email)
    case Some(result) => Some(AsPartial(result))
    case None => StandIn(email, u)
  }

  /** The two employees generated for a company nobody stored works for. */
  function MockEmployees(companyName: string, u1: real, u2: real): seq<PartialPerson>
    requires 0.0 <= u1 < 1.0 && 0.0 <= u2 < 1.0
  {
    var lower := ToLower(companyName);
    [EmptyPartial.(name := Some("Jo\U{E3}o " + companyName), email := Some("joao@" + lower + ".com"),
                   company := Some(companyName), instagram := Some("joao_" + lower), whatsapp := Some(MockWhatsapp(u1))),
     EmptyPartial.(name := Some("Maria " + companyName), email := Some("maria@" + lower + ".com"),
                   company := Some(companyName), instagram := Some("maria_" + lower), whatsapp := Some(MockWhatsapp(u2)))]
  }

  /** `searchByCompany`: the stored records whose company contains the query ignoring
      case; when there are none, exactly the two generated employees. */
  function SearchByCompany(companyName: string, u1: real, u2: real): (r: seq<PartialPerson>)
    requires 0.0 <= u1 < 1.0 && 0.0 <= u2 < 1.0
    ensures r != []
    ensures ByCompany(MockData, companyName) != [] ==>
              |r| == |ByCompany(MockData, companyName)|
              && forall i :: 0 <= i < |r| ==> r[i] == AsPartial(ByCompany(MockData, companyName)[i])
    ensures ByCompany(MockData, companyName) == [] ==>
              |r| == 2 && r[0].name == Some("Jo\U{E3}o " + companyName) && r[1].name == Some("Maria " + companyName)
              && r[0].company == Some(companyName) && r[1].company == Some(companyName)
  {
    var results := ByCompany(MockData, companyName);
    if |results| == 0 then MockEmployees(companyName, u1, u2)
    else seq(|results|, i requires 0 <= i < |results| => AsPartial(results[i]))
  }

  /** `searchByName`: the stored records whose name contains the query ignoring case,
      possibly none. */
  function SearchByName(name: string): (r: seq<PartialPerson>)
    ensures |r| == |ByName(MockData, name)|
    ensures forall i :: 0 <= i < |r| ==> r[i] == AsPartial(ByName(MockData, name)[i])
  {
    var results := ByName(MockData, name);
    seq(|results|, i requires 0 <= i < |results| => AsPartial(results[i]))
  }
}
