/** The key-free provider (backend/src/infrastructure/providers/BasicProvider.ts): names
    derived from an email's local part, a company from a domain's first label, a domain
    guessed from a company name, the role addresses it proposes for a company, and the
    two identity heuristics it applies to profile usernames and slugs. The web searches
    behind `searchBasicSocial` are an oracle. */
module Basic {
  import opened Wrappers
  import opened JsText
  import opened PersonEntity
  import opened InstagramMatching

  // ------------------------------------------------------------ names from emails

  /** The characters `/[._-]/` matches. */
  predicate EmailBreak(c: char) { c == '.' || c == '_' || c == '-' }

  /** A character that ends a word of the generated name: a break or a space. */
  predicate WordEnd(c: char) { EmailBreak(c) || c == ' ' }

  function BreakToSpace(c: char): char { if EmailBreak(c) then ' ' else c }

  /** `w.charAt(0).toUpperCase() + w.slice(1)`. */
  function Capitalize(w: string): (r: string)
    ensures |r| == |w|
  {
    if w == "" then "" else [UpperChar(w[0])] + w[1..]
  }

  /** `ws.map(word => word.charAt(0).toUpperCase() + word.slice(1))`. */
  function CapitalizeAll(ws: seq<string>): (r: seq<string>)
    ensures |r| == |ws|
    ensures forall i :: 0 <= i < |ws| ==> r[i] == Capitalize(ws[i])
  {
    seq(|ws|, i requires 0 <= i < |ws| => Capitalize(ws[i]))
  }

  /** The string with the first character and every character after a space upper-cased. */
  function TitleCase(s: string): (r: string)
    ensures |r| == |s|
    ensures forall i :: 0 <= i < |s| ==> r[i] == if i == 0 || s[i - 1] == ' ' then UpperChar(s[i]) else s[i]
  {
    seq(|s|, i requires 0 <= i < |s| => if i == 0 || s[i - 1] == ' ' then UpperChar(s[i]) else s[i])
  }

  /** Splitting on spaces, capitalising each piece and joining with spaces upper-cases
      exactly the characters that start a piece. */
  lemma {:induction false} JoinCapitalizedSplit(s: string)
    ensures Join(CapitalizeAll(Split(s, ' ')), " ") == TitleCase(s)
    decreases |s|
  {
    var k := IndexOf(s, ' ');
    if k < 0 {
      assert Split(s, ' ') == [s];
      TitleCaseOneWord(s);
    } else {
      var rest := s[k + 1..];
      var pieces := Split(rest, ' ');
      assert Split(s, ' ') == [s[..k]] + pieces;
      CapitalizedCons(s[..k], pieces);
      JoinCapitalizedSplit(rest);
      TitleCaseAtSpace(s, k);
    }
  }

  lemma TitleCaseOneWord(s: string)
    requires ' ' !in s
    ensures Capitalize(s) == TitleCase(s)
  {
    forall i | 0 <= i < |s| ensures s[i] != ' ' {
      assert s[i] in s;
    }
  }

  lemma CapitalizedCons(head: string, pieces: seq<string>)
    requires |pieces| >= 1
    ensures Join(CapitalizeAll([head] + pieces), " ") == Capitalize(head) + " " + Join(CapitalizeAll(pieces), " ")
  {
    var caps := CapitalizeAll(pieces);
    assert CapitalizeAll([head] + pieces) == [Capitalize(head)] + caps;
    assert ([Capitalize(head)] + caps)[1..] == caps;
  }

  lemma TitleCaseAtSpace(s: string, k: nat)
    requires k < |s| && s[k] == ' ' && ' ' !in s[..k]
    ensures TitleCase(s) == Capitalize(s[..k]) + " " + TitleCase(s[k + 1..])
  {
    var rest := s[k + 1..];
    var r := Capitalize(s[..k]) + " " + TitleCase(rest);
    forall i | 0 <= i < |s| ensures r[i] == TitleCase(s)[i] {
      if 0 < i < k {
        assert s[..k][i - 1] == s[i - 1];
        assert s[i - 1] in s[..k];
      } else if i > k {
        assert rest[i - k - 1] == s[i];
        if i > k + 1 { assert rest[i - k - 2] == s[i - 1]; }
      }
    }
  }

  /** `generateNameFromEmail`: every '.', '_' or '-' becomes a space, and every character
      that starts the local part or follows a space, '.', '_' or '-' is upper-cased; the
      rest is kept as it is. */
  function GenerateNameFromEmail(localPart: string): (r: string)
    ensures |r| == |localPart|
    ensures forall i :: 0 <= i < |localPart| ==>
              r[i] == if WordEnd(localPart[i]) then ' '
                      else if i == 0 || WordEnd(localPart[i - 1]) then UpperChar(localPart[i])
                      else localPart[i]
  {
    var spaced := MapChars(localPart, BreakToSpace);
    JoinCapitalizedSplit(spaced);
    SpacedTitleCase(localPart);
    Join(CapitalizeAll(Split(spaced, ' ')), " ")
  }

  lemma SpacedTitleCase(localPart: string)
    ensures var t := TitleCase(MapChars(localPart, BreakToSpace));
            forall i :: 0 <= i < |localPart| ==>
              t[i] == if WordEnd(localPart[i]) then ' '
                      else if i == 0 || WordEnd(localPart[i - 1]) then UpperChar(localPart[i])
                      else localPart[i]
  {
    var spaced := MapChars(localPart, BreakToSpace);
    var t := TitleCase(spaced);
    forall i | 0 <= i < |localPart|
      ensures t[i] == if WordEnd(localPart[i]) then ' '
                      else if i == 0 || WordEnd(localPart[i - 1]) then UpperChar(localPart[i])
                      else localPart[i]
    {
      assert spaced[i] == BreakToSpace(localPart[i]);
      if i > 0 { assert spaced[i - 1] == BreakToSpace(localPart[i - 1]); }
      assert UpperChar(' ') == ' ';
    }
  }

  /** A single word is only capitalised. */
  lemma OneWordName(w: string)
    requires w != "" && forall i :: 0 <= i < |w| ==> !WordEnd(w[i])
    ensures GenerateNameFromEmail(w) == [UpperChar(w[0])] + w[1..]
  {
    var r := GenerateNameFromEmail(w);
    assert forall i :: 0 <= i < |w| ==> r[i] == ([UpperChar(w[0])] + w[1..])[i];
  }

  /** Two words joined by '.', '_' or '-' become the two capitalised words with a space. */
  lemma TwoWordName(a: string, sep: char, b: string)
    requires a != "" && b != "" && EmailBreak(sep)
    requires forall i :: 0 <= i < |a| ==> !WordEnd(a[i])
    requires forall i :: 0 <= i < |b| ==> !WordEnd(b[i])
    ensures GenerateNameFromEmail(a + [sep] + b) == Capitalize(a) + " " + Capitalize(b)
  {
    var s := a + [sep] + b;
    var r := GenerateNameFromEmail(s);
    var ca, cb := Capitalize(a), Capitalize(b);
    var e := ca + " " + cb;
    forall i | 0 <= i < |s| ensures r[i] == e[i] {
      if i < |a| {
        assert s[i] == a[i] && e[i] == ca[i];
        if i > 0 { assert s[i - 1] == a[i - 1] && ca[i] == a[i]; }
      } else if i == |a| {
        assert s[i] == sep && e[i] == ' ';
      } else {
        var j := i - |a| - 1;
        assert s[i] == b[j] && e[i] == cb[j];
        if j > 0 { assert s[i - 1] == b[j - 1] && cb[j] == b[j]; }
        else { assert s[i - 1] == sep; }
      }
    }
    assert r == e;
  }

  lemma PedroLucasWords()
    ensures forall i :: 0 <= i < 5 ==> !WordEnd("pedro"[i]) && !WordEnd("lucas"[i])
    ensures Capitalize("pedro") == "Pedro" && Capitalize("lucas") == "Lucas"
  {
    assert UpperChar('p') == 'P' && UpperChar('l') == 'L';
  }

  /** The documented example: "pedro.lucas" gives "Pedro Lucas". */
  lemma PedroLucasName()
    ensures GenerateNameFromEmail("pedro.lucas") == "Pedro Lucas"
  {
    assert "pedro.lucas" == "pedro" + ['.'] + "lucas";
    PedroLucasWords();
    TwoWordName("pedro", '.', "lucas");
  }

  // ------------------------------------------------------------ companies and domains

  /** `getCompanyFromDomain`: the first '.'-separated label with its first character
      upper-cased, or nothing when that label is empty. */
  function GetCompanyFromDomain(domain: string): (r: Option<string>)
    ensures r.None? <==> domain == "" || domain[0] == '.'
    ensures r.Some? ==>
              var n := |r.value|;
              && 1 <= n <= |domain|
              && r.value[0] == UpperChar(domain[0]) && r.value[1..] == domain[1..n]
              && '.' !in domain[..n]
              && (n == |domain| || domain[n] == '.')
  {
    var mainDomain := FirstPiece(domain, '.');
    if mainDomain == "" then None else Some(Capitalize(mainDomain))
  }

  /** The words `/ltda|sa|me|eireli/g` deletes, in the order the expression tries them. */
  const LegalForms: seq<string> := ["ltda", "sa", "me", "eireli"]

  const DomainSuffix := ".com.br"

  lemma LegalFormsNonEmpty()
    ensures NonEmptyAlts(LegalForms)
  {
  }

  /** The label `guessDomainFromCompany` puts before ".com.br": the lower-cased name
      stripped to [a-z0-9], then every legal-form occurrence deleted in one left-to-right
      pass, inside words too. */
  function GuessedLabel(companyName: string): (r: string)
    ensures |r| <= |companyName|
    ensures forall i :: 0 <= i < |r| ==> LowerOrDigit(r[i])
  {
    LegalFormsNonEmpty();
    var cleanName := Filter(ToLower(companyName), LowerOrDigit);
    var stripped := RemoveAll(cleanName, LegalForms, false);
    assert forall i :: 0 <= i < |stripped| ==> stripped[i] in cleanName;
    stripped
  }

  /** `guessDomainFromCompany`: always a string (never null) ending in ".com.br", whose
      part before the suffix uses only [a-z0-9] and is no longer than the name. */
  function GuessDomainFromCompany(companyName: string): (r: string)
    ensures EndsWith(r, DomainSuffix)
    ensures |r| - |DomainSuffix| <= |companyName|
    ensures forall i :: 0 <= i < |r| - |DomainSuffix| ==> LowerOrDigit(r[i])
  {
    var r := GuessedLabel(companyName) + DomainSuffix;
    assert r[|r| - |DomainSuffix|..] == DomainSuffix;
    r
  }

  /** A cleaned name holding no legal form is kept whole. */
  predicate NoLegalForm(c: string) {
    forall j, i :: 0 <= j < |LegalForms| && 0 <= i <= |c| ==> !OccursAt(c, LegalForms[j], i)
  }

  lemma GuessedLabelKeepsPlainName(companyName: string)
    requires NoLegalForm(Filter(ToLower(companyName), LowerOrDigit))
    ensures GuessedLabel(companyName) == Filter(ToLower(companyName), LowerOrDigit)
  {
    var c := Filter(ToLower(companyName), LowerOrDigit);
    LegalFormsNonEmpty();
    RemoveFromNothing(c, LegalForms, false, 0);
    assert c[0..] == c;
  }

  /** The deletion is one pass: "ssaa" loses the "sa" at index 1, and the "sa" that the
      deletion brings together is kept. */
  lemma SinglePassRemoval()
    ensures RemoveAll("ssaa", LegalForms, false) == "sa"
  {
    var s := "ssaa";
    var alts := LegalForms;
    NoOccurrence(s, "ltda", 0);
    NoOccurrence(s, "me", 0);
    NoOccurrence(s, "eireli", 0);
    assert !OccursAt(s, "sa", 0) by { assert s[0..2][1] == 's'; }
    assert FirstAlt(s, alts, 0, false) == 4;
    NoOccurrence(s, "ltda", 1);
    assert s[1..3] == "sa";
    assert FirstAlt(s, alts, 1, false) == 1;
    NoOccurrence(s, "ltda", 3);
    NoOccurrence(s, "sa", 3);
    NoOccurrence(s, "me", 3);
    NoOccurrence(s, "eireli", 3);
    assert FirstAlt(s, alts, 3, false) == 4;
    assert RemoveFrom(s, alts, false, 3) == "a";
    assert RemoveFrom(s, alts, false, 1) == "a";
  }

  /** Occurrences inside words are deleted too: the label of "mesa" is empty, so its
      guessed domain is ".com.br". */
  lemma MesaLosesItsLabel()
    ensures RemoveAll("mesa", LegalForms, false) == ""
  {
    var s := "mesa";
    var alts := LegalForms;
    NoOccurrence(s, "ltda", 0);
    NoOccurrence(s, "sa", 0);
    assert s[0..2] == "me";
    assert FirstAlt(s, alts, 0, false) == 2;
    NoOccurrence(s, "ltda", 2);
    assert s[2..4] == "sa";
    assert FirstAlt(s, alts, 2, false) == 1;
  }

  // ------------------------------------------------------------ provider operations

  /** The roles `searchByCompany` writes to, in order; only the first three are returned. */
  const CommonRoles: seq<string> := ["contato", "info", "vendas", "comercial", "suporte"]

  /** The candidate proposed for one role. */
  function RoleCandidate(role: string, domain: string, companyName: string): PartialPerson {
    EmptyPartial.(name := Some(GenerateNameFromEmail(role) + " - " + companyName),
                  email := Some(role + "@" + domain), company := Some(companyName))
  }

  lemma RoleNames()
    ensures GenerateNameFromEmail("contato") == "Contato"
    ensures GenerateNameFromEmail("info") == "Info"
    ensures GenerateNameFromEmail("vendas") == "Vendas"
  {
    RoleWords();
    OneWordName("contato");
    OneWordName("info");
    OneWordName("vendas");
  }

  lemma RoleWords()
    ensures forall i :: 0 <= i < 7 ==> !WordEnd("contato"[i])
    ensures forall i :: 0 <= i < 4 ==> !WordEnd("info"[i])
    ensures forall i :: 0 <= i < 6 ==> !WordEnd("vendas"[i])
    ensures UpperChar('c') == 'C' && UpperChar('i') == 'I' && UpperChar('v') == 'V'
  {
  }

  /** `searchByCompany`: the candidates for the first three roles at the guessed domain;
      the last two are built and dropped by `slice(0, 3)`. */
  method SearchByCompany(companyName: string) returns (results: seq<PartialPerson>)
    ensures |results| == 3
    ensures forall i :: 0 <= i < 3 ==>
              results[i] == RoleCandidate(CommonRoles[i], GuessDomainFromCompany(companyName), companyName)
  {
    // The guessed domain always ends in ".com.br", so the `!domain` return cannot fire.
    var domain := GuessDomainFromCompany(companyName);
    var all: seq<PartialPerson> := [];
    for i := 0 to |CommonRoles|
      invariant |all| == i
      invariant forall j :: 0 <= j < i ==> all[j] == RoleCandidate(CommonRoles[j], domain, companyName)
    {
      var role := CommonRoles[i];
      var email := role + "@" + domain;
      var name := GenerateNameFromEmail(role);
      all := all + [EmptyPartial.(name := Some(name + " - " + companyName), email := Some(email),
                                  company := Some(companyName))];
    }
    results := all[..3];
  }

  /** The three candidates are "Contato - q", "Info - q" and "Vendas - q", at
      contato@, info@ and vendas@ the guessed domain, with the query as company. */
  lemma CompanyCandidates(companyName: string)
    ensures var domain := GuessDomainFromCompany(companyName);
            && RoleCandidate(CommonRoles[0], domain, companyName)
                 == EmptyPartial.(name := Some("Contato" + " - " + companyName), email := Some("contato" + "@" + domain),
                                  company := Some(companyName))
            && RoleCandidate(CommonRoles[1], domain, companyName)
                 == EmptyPartial.(name := Some("Info" + " - " + companyName), email := Some("info" + "@" + domain),
                                  company := Some(companyName))
            && RoleCandidate(CommonRoles[2], domain, companyName)
                 == EmptyPartial.(name := Some("Vendas" + " - " + companyName), email := Some("vendas" + "@" + domain),
                                  company := Some(companyName))
  {
    RoleNames();
    var domain := GuessDomainFromCompany(companyName);
    assert CommonRoles[0] == "contato" && CommonRoles[1] == "info" && CommonRoles[2] == "vendas";
  }

  /** `searchByName`: not supported. */
  method SearchByName(name: string) returns (r: seq<PartialPerson>)
    ensures r == []
  {
    r := [];
  }

  /** What `searchBasicSocial` resolves to: an object with at most these two fields. */
  datatype SocialInfo = SocialInfo(instagram: Option<string>, linkedIn: Option<string>)

  /** `searchByEmail` around its network part: `social(localPart, name, company)` is what
      `searchBasicSocial` resolves to. The local part is the text before the first '@' and
      the domain the text between it and the next '@'; either empty gives null. */
  function SearchByEmail(email: string, social: (string, string, Option<string>) -> SocialInfo): (r: Option<PartialPerson>)
    ensures var a := IndexOf(email, '@');
            r.None? <==> a <= 0 || a + 1 == |email| || email[a + 1] == '@'
    ensures r.Some? ==>
              var a := IndexOf(email, '@');
              var name := GenerateNameFromEmail(email[..a]);
              var company := GetCompanyFromDomain(FirstPiece(email[a + 1..], '@'));
              var info := social(email[..a], name, company);
              r.value == EmptyPartial.(name := Some(name), email := Some(email), company := company,
                                       instagram := info.instagram, linkedIn := info.linkedIn)
  {
    var parts := Split(email, '@');
    SplitHead(email, '@');
    var localPart := parts[0];
    var domain := if |parts| > 1 then parts[1] else "";
    SplitSecond(email, '@');
    if localPart == "" || domain == "" then None
    else
      var company := GetCompanyFromDomain(domain);
      var name := GenerateNameFromEmail(localPart);
      var info := social(localPart, name, company);
      Some(EmptyPartial.(name := Some(name), email := Some(email), company := company,
                         instagram := info.instagram, linkedIn := info.linkedIn))
  }

  /** Every address `validateEmail` accepts is looked up, its domain being all that follows
      the '@'. */
  lemma ValidEmailLookedUp(email: string, social: (string, string, Option<string>) -> SocialInfo)
    requires ValidateEmail(email)
    ensures SearchByEmail(email, social).Some?
    ensures SearchByEmail(email, social).value.company ==
              GetCompanyFromDomain(email[IndexOf(email, '@') + 1..])
  {
    var a := IndexOf(email, '@');
    var rest := email[a + 1..];
    assert forall i :: 0 <= i < |rest| ==> rest[i] == email[a + 1 + i];
    assert IndexOf(rest, '@') < 0;
  }

  // ------------------------------------------------------------ identity heuristics

  /** The combinations `usernameMatchesPerson` looks for, in order. */
  function CommonPatterns(first: string, last: string): seq<string>
    requires first != "" && last != ""
  {
    [first + last, first + "." + last, first + "_" + last, first + [last[0]], [first[0]] + last]
  }

  /** The points of the if/else-if chain on the cleaned username. */
  function ChainPoints(cu: string, first: string, last: string): int
    requires last != ""
  {
    if Contains(cu, first) && Contains(cu, last) && first != last then 10
    else if Contains(cu, first) && Contains(cu, [last[0]]) then 8
    else if Contains(cu, first) && |first| > 3 then 5
    else if Contains(cu, last) && |last| > 3 then 5
    else 0
  }

  /** Some combination longer than two characters occurs in the lower-cased username. */
  predicate PatternHit(lu: string, first: string, last: string)
    requires first != "" && last != ""
  {
    exists k :: 0 <= k < 5 && |CommonPatterns(first, last)[k]| > 2 && Contains(lu, CommonPatterns(first, last)[k])
  }

  /** The score of `usernameMatchesPerson`: the chain on the username without '.', '_' and
      '-', plus 8 once for a combination found in the lower-cased username itself. */
  function MatchScore(username: string, parts: seq<string>): int
    requires parts != [] && forall i :: 0 <= i < |parts| ==> parts[i] != ""
  {
    ChainPoints(CleanUsername(username), First(parts), Last(parts))
    + Points(PatternHit(ToLower(username), First(parts), Last(parts)), 8)
  }

  const MatchThreshold := 7

  /** `usernameMatchesPerson`: false for a name without tokens; otherwise a match iff the
      score reaches 7. */
  method UsernameMatchesPerson(username: string, personName: string) returns (isMatch: bool)
    ensures NameParts(personName) == [] ==> !isMatch
    ensures NameParts(personName) != [] ==> (isMatch <==> MatchScore(username, NameParts(personName)) >= MatchThreshold)
  {
    var nameParts := NameParts(personName);
    if |nameParts| == 0 {
      return false;
    }
    var cleanUsername := CleanUsername(username);
    var lowerUsername := ToLower(username);
    var matchScore := ScoreUsername(cleanUsername, lowerUsername, nameParts);
    isMatch := matchScore >= MatchThreshold;
  }

  /** The scoring part of `usernameMatchesPerson`. */
  method ScoreUsername(cleanUsername: string, lowerUsername: string, nameParts: seq<string>) returns (matchScore: int)
    requires nameParts != [] && forall i :: 0 <= i < |nameParts| ==> nameParts[i] != ""
    ensures matchScore == ChainPoints(cleanUsername, First(nameParts), Last(nameParts))
                          + Points(PatternHit(lowerUsername, First(nameParts), Last(nameParts)), 8)
  {
    matchScore := 0;
    var firstName := nameParts[0];
    var lastName := if |nameParts| > 1 then nameParts[|nameParts| - 1] else firstName;
    // Both names are non-empty parts, so the `!firstName` return and the truthiness
    // tests on `firstName` and `lastName` always pass.
    var hasFirst := Contains(cleanUsername, firstName);
    var hasLast := Contains(cleanUsername, lastName);
    var hasInitial := Contains(cleanUsername, [lastName[0]]);
    if hasFirst && hasLast && firstName != lastName {
      matchScore := matchScore + 10;
    } else if hasFirst && hasInitial {
      matchScore := matchScore + 8;
    } else if hasFirst && |firstName| > 3 {
      matchScore := matchScore + 5;
    } else if hasLast && |lastName| > 3 {
      matchScore := matchScore + 5;
    }
    var bonus := PatternBonus(lowerUsername, firstName, lastName);
    matchScore := matchScore + bonus;
  }

  /** The pattern loop: 8 points for the first combination found, at most once. */
  method PatternBonus(lowerUsername: string, firstName: string, lastName: string) returns (bonus: int)
    requires firstName != "" && lastName != ""
    ensures bonus == Points(PatternHit(lowerUsername, firstName, lastName), 8)
  {
    bonus := 0;
    var commonPatterns := CommonPatterns(firstName, lastName);
    var k := 0;
    while k < |commonPatterns|
      invariant 0 <= k <= |commonPatterns|
      invariant forall j :: 0 <= j < k ==> !(|commonPatterns[j]| > 2 && Contains(lowerUsername, commonPatterns[j]))
    {
      var pattern := commonPatterns[k];
      if |pattern| > 2 && Contains(lowerUsername, pattern) {
        bonus := 8;
        break;
      }
      k := k + 1;
    }
  }

  /** An occurrence of a word contains an occurrence of its first character. */
  lemma ContainsFirstChar(s: string, w: string)
    requires w != "" && Contains(s, w)
    ensures Contains(s, [w[0]])
  {
    var i: nat :| i <= |s| && OccursAt(s, w, i);
    assert s[i..i + 1] == [w[0]];
    assert OccursAt(s, [w[0]], i);
  }

  /** The 5-point branches never decide: a username matches iff its cleaned form contains
      the first name and the last name's initial, or a combination occurs in it. */
  lemma MatchMeaning(cu: string, lu: string, first: string, last: string)
    requires first != "" && last != ""
    ensures ChainPoints(cu, first, last) + Points(PatternHit(lu, first, last), 8) >= MatchThreshold
            <==> (Contains(cu, first) && Contains(cu, [last[0]])) || PatternHit(lu, first, last)
  {
    if Contains(cu, last) {
      ContainsFirstChar(cu, last);
    }
  }

  /** No username scores exactly 7, so the threshold `>= 7` and the `> 7` of the source
      comment accept the same usernames. */
  lemma ScoreNeverSeven(cu: string, lu: string, first: string, last: string)
    requires first != "" && last != ""
    ensures ChainPoints(cu, first, last) + Points(PatternHit(lu, first, last), 8) != 7
  {
  }

  /** Distinct first and last names both inside the cleaned username give at least 10
      points and a match. */
  lemma FullNameMatches(username: string, parts: seq<string>)
    requires parts != [] && forall i :: 0 <= i < |parts| ==> parts[i] != ""
    requires First(parts) != Last(parts)
    requires Contains(CleanUsername(username), First(parts)) && Contains(CleanUsername(username), Last(parts))
    ensures MatchScore(username, parts) >= 10
    ensures MatchScore(username, parts) >= MatchThreshold
  {
  }

  /** The first name alone, without the last name or its initial and without a
      combination, scores 5 (or 0 for a first name of at most 3 characters) and fails. */
  lemma FirstNameAloneFails(username: string, parts: seq<string>)
    requires parts != [] && forall i :: 0 <= i < |parts| ==> parts[i] != ""
    requires Contains(CleanUsername(username), First(parts))
    requires !Contains(CleanUsername(username), Last(parts))
    requires !Contains(CleanUsername(username), [Last(parts)[0]])
    requires !PatternHit(ToLower(username), First(parts), Last(parts))
    ensures MatchScore(username, parts) == if |First(parts)| > 3 then 5 else 0
    ensures MatchScore(username, parts) < MatchThreshold
  {
  }

  /** The characters `.replace(/[-_]/g, '')` keeps. */
  predicate SlugKeeps(c: char) { c != '-' && c != '_' }

  function CleanSlug(slug: string): string { Filter(ToLower(slug), SlugKeeps) }

  /** `slugMatchesPerson`: some space-separated token of the lower-cased name, longer than
      two characters, occurs in the lower-cased slug without '-' and '_'. */
  predicate SlugMatchesPerson(slug: string, personName: string) {
    var nameParts := Split(ToLower(personName), ' ');
    exists i :: 0 <= i < |nameParts| && Contains(CleanSlug(slug), nameParts[i]) && |nameParts[i]| > 2
  }

  /** A '-' or '_' anywhere in the slug does not change the answer. */
  lemma SlugIgnoresSeparator(a: string, c: char, b: string, personName: string)
    requires c == '-' || c == '_'
    ensures SlugMatchesPerson(a + [c] + b, personName) == SlugMatchesPerson(a + b, personName)
  {
    ToLowerAppend(a + [c], b);
    ToLowerAppend(a, [c]);
    ToLowerAppend(a, b);
    assert ToLower([c]) == [c];
    FilterAppend(ToLower(a) + [c], ToLower(b), SlugKeeps);
    FilterAppend(ToLower(a), [c], SlugKeeps);
    FilterAppend(ToLower(a), ToLower(b), SlugKeeps);
    assert Filter([c], SlugKeeps) == [];
    assert CleanSlug(a + [c] + b) == CleanSlug(a + b);
  }

  /** A name whose tokens all have at most two characters matches no slug. */
  lemma ShortTokensNeverMatch(slug: string, personName: string)
    requires forall i :: 0 <= i < |Split(ToLower(personName), ' ')| ==> |Split(ToLower(personName), ' ')[i]| <= 2
    ensures !SlugMatchesPerson(slug, personName)
  {
  }
}
