/** The identity heuristics of backend/src/infrastructure/providers/InstagramScraper.ts: the
    company-suffix stripping, the keyword and candidate-username generators, and the two
    username scorers. The scraping strategies around them are not part of this model. */
module InstagramMatching {
  import opened JsText

  // ------------------------------------------------------------ shared cleaning steps

  /** The words of `\b(ltda|ltd|s\.?a\.?|me|mei|eireli|...|group|grupo)\b` in the order the
      engine tries them; `s\.?a\.?` stands for its four spellings in backtracking order. */
  const CompanySuffixes: seq<string> := [
    "ltda", "ltd", "s.a.", "s.a", "sa.", "sa", "me", "mei", "eireli", "sociedade", "empresa",
    "tecnologia", "tech", "sistemas", "system", "soluções", "solutions", "serviços", "services",
    "comercio", "comercial", "industria", "industrial", "consultoria", "group", "grupo"]

  lemma SuffixesNonEmpty()
    ensures NonEmptyAlts(CompanySuffixes)
  {
  }

  /** `s.replace(/\b(...)\b/g, '')` with the suffix words. */
  function StripSuffixWords(s: string): (r: string)
    ensures |r| <= |s|
  {
    SuffixesNonEmpty();
    RemoveAll(s, CompanySuffixes, true)
  }

  /** The characters `.replace(/[^a-z0-9\s]/g, '')` keeps. */
  predicate KeptByClass(c: char) { IsLower(c) || IsDigit(c) || IsSpace(c) }

  /** The characters `.replace(/[._-]/g, '')` keeps. */
  predicate NotSeparator(c: char) { c != '.' && c != '_' && c != '-' }

  predicate NotSpace(c: char) { !IsSpace(c) }

  /** The characters `.replace(/[^a-z0-9]/g, '')` keeps. */
  predicate LowerOrDigit(c: char) { IsLower(c) || IsDigit(c) }

  /** `username.toLowerCase().replace(/[._-]/g, '')`. */
  function CleanUsername(username: string): string {
    Filter(ToLower(username), NotSeparator)
  }

  /** `ws.filter(w => w.length > min)`. */
  function LongerThan(ws: seq<string>, min: nat): (r: seq<string>)
    ensures |r| <= |ws|
    ensures forall i :: 0 <= i < |r| ==> |r[i]| > min && r[i] in ws
  {
    if ws == [] then [] else (if |ws[0]| > min then [ws[0]] else []) + LongerThan(ws[1..], min)
  }

  /** `ws.map(w => w.charAt(0)).join('')`. */
  function FirstChars(ws: seq<string>): (r: string)
    ensures (forall i :: 0 <= i < |ws| ==> ws[i] != "") ==> |r| == |ws|
  {
    if ws == [] then "" else (if ws[0] == "" then "" else [ws[0][0]]) + FirstChars(ws[1..])
  }

  /** `s.replace(/\s/g, c)`. */
  function SpacesTo(s: string, c: char): string {
    MapChars(s, x => if IsSpace(x) then c else x)
  }

  /** `Set.add` on the insertion-ordered contents of a set. */
  function AddNew(vs: seq<string>, v: string): seq<string> {
    if v in vs then vs else vs + [v]
  }

  /** Adding every element of `xs` in order. */
  function AddAll(vs: seq<string>, xs: seq<string>): seq<string> {
    if xs == [] then vs else AddNew(AddAll(vs, xs[..|xs| - 1]), xs[|xs| - 1])
  }

  /** The set holds what it held and what was added, nothing else. */
  lemma {:induction false} AddAllMembers(vs: seq<string>, xs: seq<string>)
    ensures forall x :: x in AddAll(vs, xs) <==> x in vs || x in xs
  {
    if xs != [] {
      var init := xs[..|xs| - 1];
      AddAllMembers(vs, init);
      assert xs == init + [xs[|xs| - 1]];
    }
  }

  /** Adding never duplicates. */
  lemma {:induction false} AddAllNoDup(vs: seq<string>, xs: seq<string>)
    requires NoDup(vs)
    ensures NoDup(AddAll(vs, xs))
  {
    if xs != [] {
      AddAllNoDup(vs, xs[..|xs| - 1]);
    }
  }

  /** Adding keeps what was there in place. */
  lemma {:induction false} AddAllPrefix(vs: seq<string>, xs: seq<string>)
    ensures |vs| <= |AddAll(vs, xs)| && AddAll(vs, xs)[..|vs|] == vs
  {
    if xs != [] {
      AddAllPrefix(vs, xs[..|xs| - 1]);
    }
  }

  lemma AddAllSnoc(vs: seq<string>, xs: seq<string>, x: string)
    ensures AddAll(vs, xs + [x]) == AddNew(AddAll(vs, xs), x)
  {
    assert (xs + [x])[..|xs|] == xs;
  }

  /** Adding two lists one after the other is adding their concatenation. */
  lemma {:induction false} AddAllAppend(vs: seq<string>, xs: seq<string>, ys: seq<string>)
    ensures AddAll(AddAll(vs, xs), ys) == AddAll(vs, xs + ys)
    decreases |ys|
  {
    if ys != [] {
      var init := ys[..|ys| - 1];
      AddAllAppend(vs, xs, init);
      assert xs + ys == (xs + init) + [ys[|ys| - 1]];
      AddAllSnoc(vs, xs + init, ys[|ys| - 1]);
    } else {
      assert xs + ys == xs;
    }
  }

  predicate NoDup(vs: seq<string>) {
    forall i, j :: 0 <= i < j < |vs| ==> vs[i] != vs[j]
  }

  // ------------------------------------------------------------ generateSearchKeywords

  /** The words `generateSearchKeywords` works with: suffix words and punctuation removed,
      split on whitespace, only words of three or more characters. */
  function KeywordWords(companyName: string): (ws: seq<string>)
    ensures forall i :: 0 <= i < |ws| ==> |ws[i]| > 2
  {
    var pieces := SplitOnSpaces(Filter(StripSuffixWords(ToLower(companyName)), KeptByClass));
    LongerThan(pieces, 2)
  }

  /** The adjacent pairs `words[j] + " " + words[j + 1]` for `j < n`, in order. */
  function Pairs(words: seq<string>, n: nat): seq<string>
    requires n == 0 || n < |words|
  {
    if n == 0 then [] else Pairs(words, n - 1) + [words[n - 1] + " " + words[n]]
  }

  lemma {:induction false} PairsMembers(words: seq<string>, n: nat)
    requires n == 0 || n < |words|
    ensures forall x :: x in Pairs(words, n) <==> exists j :: 0 <= j < n && x == words[j] + " " + words[j + 1]
  {
    if n > 0 {
      PairsMembers(words, n - 1);
    }
  }

  /** The keywords in the order the generator adds them, duplicates included. */
  function KeywordSteps(words: seq<string>): seq<string> {
    (if |words| > 0 && words[0] != "" then [words[0]] else [])
    + Pairs(words, if |words| > 0 then |words| - 1 else 0)
    + (if |words| > 1 then [Join(words, " ")] else [])
  }

  /** The keywords the generator may add for `words`: the first word when it is not empty,
      each adjacent pair joined by a space, and all words joined when there are at least two. */
  predicate KeywordCandidate(words: seq<string>, k: string) {
    || (words != [] && words[0] != "" && k == words[0])
    || (exists i :: 0 <= i < |words| - 1 && k == words[i] + " " + words[i + 1])
    || (|words| > 1 && k == Join(words, " "))
  }

  lemma {:induction false} JoinLength(ws: seq<string>, sep: string)
    requires ws != []
    ensures |Join(ws, sep)| >= |ws[0]|
  {
  }

  /** The steps offer exactly the candidate keywords. */
  lemma StepsAreCandidates(words: seq<string>)
    ensures forall k :: k in KeywordSteps(words) <==> KeywordCandidate(words, k)
  {
    var n := if |words| > 0 then |words| - 1 else 0;
    PairsMembers(words, n);
    var head := if |words| > 0 && words[0] != "" then [words[0]] else [];
    var tail := if |words| > 1 then [Join(words, " ")] else [];
    assert KeywordSteps(words) == head + Pairs(words, n) + tail;
    forall k ensures k in KeywordSteps(words) <==> KeywordCandidate(words, k) {
      assert k in head <==> words != [] && words[0] != "" && k == words[0];
      assert k in tail <==> |words| > 1 && k == Join(words, " ");
    }
  }

  /** Every keyword is longer than two characters when every word is. */
  lemma StepsAreLong(words: seq<string>)
    requires forall i :: 0 <= i < |words| ==> |words[i]| > 2
    ensures forall k :: k in KeywordSteps(words) ==> |k| > 2
  {
    StepsAreCandidates(words);
    if |words| > 1 {
      JoinLength(words, " ");
    }
  }

  /** The first word, when there is one, is the first keyword. */
  lemma StepsStartWithFirstWord(words: seq<string>)
    requires words != [] && words[0] != ""
    ensures AddAll([], KeywordSteps(words))[..1] == [words[0]]
  {
    var steps := KeywordSteps(words);
    assert steps == [words[0]] + steps[1..];
    AddAllAppend([], [words[0]], steps[1..]);
    assert AddAll([], [words[0]]) == [words[0]];
    AddAllPrefix([words[0]], steps[1..]);
  }

  /** The keywords `generateSearchKeywords` returns, in insertion order. */
  function Keywords(companyName: string): seq<string> {
    AddAll([], KeywordSteps(KeywordWords(companyName)))
  }

  /** For words longer than two characters (as `KeywordWords` yields), the keywords are
      exactly the candidates, each once, the first word first, and all longer than two
      characters. */
  lemma KeywordsMeaning(words: seq<string>)
    requires forall i :: 0 <= i < |words| ==> |words[i]| > 2
    ensures var keywords := AddAll([], KeywordSteps(words));
            && NoDup(keywords)
            && (forall k :: k in keywords <==> KeywordCandidate(words, k))
            && (words != [] ==> keywords != [] && keywords[0] == words[0])
            && (forall i :: 0 <= i < |keywords| ==> |keywords[i]| > 2)
  {
    StepsAreCandidates(words);
    StepsAreLong(words);
    AddAllMembers([], KeywordSteps(words));
    AddAllNoDup([], KeywordSteps(words));
    if words != [] {
      StepsStartWithFirstWord(words);
    }
  }

  /** `generateSearchKeywords`. */
  method GenerateSearchKeywords(companyName: string) returns (keywords: seq<string>)
    ensures keywords == Keywords(companyName)
  {
    keywords := CollectKeywords(KeywordWords(companyName));
  }

  /** The body of `generateSearchKeywords` once the name has been cleaned and split. */
  method CollectKeywords(words: seq<string>) returns (keywords: seq<string>)
    ensures keywords == AddAll([], KeywordSteps(words))
  {
    ghost var first := if |words| > 0 && words[0] != "" then [words[0]] else [];
    keywords := [];
    if |words| > 0 && words[0] != "" {
      keywords := AddNew(keywords, words[0]);
    }
    assert keywords == AddAll([], first + Pairs(words, 0));
    var i := 0;
    while i < |words| - 1
      invariant 0 <= i <= if |words| > 0 then |words| - 1 else 0
      invariant keywords == AddAll([], first + Pairs(words, i))
    {
      AddAllSnoc([], first + Pairs(words, i), words[i] + " " + words[i + 1]);
      assert first + Pairs(words, i + 1) == first + Pairs(words, i) + [words[i] + " " + words[i + 1]];
      keywords := AddNew(keywords, words[i] + " " + words[i + 1]);
      i := i + 1;
    }
    if |words| > 1 {
      AddAllSnoc([], first + Pairs(words, i), Join(words, " "));
      keywords := AddNew(keywords, Join(words, " "));
    }
    assert first + Pairs(words, i) + (if |words| > 1 then [Join(words, " ")] else []) == KeywordSteps(words);
  }

  // ------------------------------------------------------------ couldBeCompanyUsername

  /** The cleaned company name of `couldBeCompanyUsername`: suffix words, punctuation and
      then all whitespace removed. */
  function CleanCompanyName(companyName: string): (r: string)
    ensures NoSpace(r)
  {
    Filter(Filter(StripSuffixWords(ToLower(companyName)), KeptByClass), NotSpace)
  }

  /** A name without whitespace is one word, kept when longer than two characters. */
  lemma CompanyWords(cc: string)
    requires NoSpace(cc)
    ensures LongerThan(SplitOnSpaces(cc), 2) == if |cc| > 2 then [cc] else []
  {
    SplitOnSpacesNoSpace(cc);
  }

  const PersonalIndicators: seq<string> := ["personal", "oficial", "admin", "user"]

  predicate HasPersonalIndicator(cu: string) {
    exists j :: 0 <= j < |PersonalIndicators| && Contains(cu, PersonalIndicators[j])
  }

  /** `couldBeCompanyUsername`. Because whitespace is removed before the split, there is at
      most one word, and the score reaches 5 exactly when the cleaned username contains the
      cleaned company name; an empty cleaned name therefore accepts every username. */
  method CouldBeCompanyUsername(username: string, companyName: string) returns (isMatch: bool)
    ensures isMatch <==> Contains(CleanUsername(username), CleanCompanyName(companyName))
  {
    var cleanUsername := CleanUsername(username);
    var cleanCompany := CleanCompanyName(companyName);
    var words := LongerThan(SplitOnSpaces(cleanCompany), 2);
    var score := 0;
    if |words| > 0 && words[0] != "" && Contains(cleanUsername, words[0]) {
      score := score + 5;
    }
    var others := if |words| > 0 then words[1..] else [];
    var extra := 0;
    var i := 0;
    while i < |others|
      invariant 0 <= i <= |others|
      invariant 0 <= extra <= 3 * i
    {
      if Contains(cleanUsername, others[i]) {
        extra := extra + 3;
      }
      i := i + 1;
    }
    // There is at most one word, so the loop over the remaining words added nothing.
    CompanyWords(cleanCompany);
    assert others == [] && extra == 0;
    score := score + extra;
    var whole := Contains(cleanUsername, cleanCompany);
    if whole {
      score := score + 7;
    }
    if |words| > 1 && Contains(cleanUsername, FirstChars(words)) {
      score := score + 4;
    }
    if HasPersonalIndicator(cleanUsername) {
      if !Contains(cleanUsername, "oficial") {
        score := score - 2;
      }
    }
    isMatch := score >= 5;
  }

  // ------------------------------------------------------------ generatePossibleUsernames

  /** `cleanedName`: suffix words and punctuation removed, whitespace runs collapsed, trimmed. */
  function CleanedName(companyName: string): string {
    Trim(CollapseSpaces(Filter(StripSuffixWords(ToLower(companyName)), KeptByClass)))
  }

  /** `clean`: the cleaned name without whitespace. */
  function Clean(companyName: string): string { Filter(CleanedName(companyName), NotSpace) }

  /** `cleanedName.split(' ').filter(w => w.length > 0)`. */
  function NameWords(companyName: string): (ws: seq<string>)
    ensures forall i :: 0 <= i < |ws| ==> ws[i] != ""
  {
    LongerThan(Split(CleanedName(companyName), ' '), 0)
  }

  function BaseNames(clean: string): seq<string> {
    [clean, clean + "oficial", clean + "_oficial", clean + ".oficial", "oficial" + clean, clean + "br", clean + "_br"]
  }

  function SeparatorNames(cleaned: string): seq<string> {
    [SpacesTo(cleaned, '_'), SpacesTo(cleaned, '.'), Filter(cleaned, NotSpace)]
  }

  function InitialNames(words: seq<string>): seq<string> {
    if |words| > 1 then
      var initials := FirstChars(words);
      [initials, initials + "oficial", initials + "_oficial", initials + "br", words[0] + FirstChars(words[1..])]
    else []
  }

  function BrandNames(words: seq<string>): seq<string> {
    if |words| > 0 then
      var mainBrand := words[0];
      [mainBrand, mainBrand + "oficial", mainBrand + "_oficial", mainBrand + "br", mainBrand + "_br"]
    else []
  }

  function SuffixNames(clean: string): seq<string> {
    [clean + "tech", clean + "_tech", clean + "company", clean + "_company", clean + "corp", clean + "_corp"]
  }

  /** `clean + i` and `clean + "_" + i` for `1 <= i < n`. */
  function NumberNames(clean: string, n: nat): seq<string>
    requires n >= 1
  {
    if n == 1 then [] else NumberNames(clean, n - 1) + [clean + NatToString(n - 1), clean + "_" + NatToString(n - 1)]
  }

  function OriginalNames(original: string): seq<string> {
    [Filter(original, LowerOrDigit), Filter(original, NotSpace), SpacesTo(original, '_')]
  }

  /** Every name the generator offers for the lower-cased name `original`, its cleaned
      form and that form's words, in the order it adds them, duplicates included. */
  function VariationsOf(original: string, cleaned: string, words: seq<string>): seq<string> {
    var clean := Filter(cleaned, NotSpace);
    BaseNames(clean) + (SeparatorNames(cleaned) + (InitialNames(words) + (BrandNames(words)
    + (SuffixNames(clean) + (NumberNames(clean, 4) + OriginalNames(original))))))
  }

  function Variations(companyName: string): seq<string> {
    VariationsOf(ToLower(companyName), CleanedName(companyName), NameWords(companyName))
  }

  /** `.filter(v => v.length >= 2)`. */
  function AtLeastTwo(vs: seq<string>): seq<string> {
    if vs == [] then []
    else (if |vs[0]| >= 2 then [vs[0]] else []) + AtLeastTwo(vs[1..])
  }

  lemma {:induction false} AtLeastTwoMembers(vs: seq<string>)
    ensures forall v :: v in AtLeastTwo(vs) <==> v in vs && |v| >= 2
  {
    if vs != [] {
      AtLeastTwoMembers(vs[1..]);
      assert vs == [vs[0]] + vs[1..];
    }
  }

  lemma {:induction false} AtLeastTwoNoDup(vs: seq<string>)
    requires NoDup(vs)
    ensures NoDup(AtLeastTwo(vs))
  {
    if vs != [] {
      AtLeastTwoNoDup(vs[1..]);
      AtLeastTwoMembers(vs[1..]);
      assert vs[0] !in vs[1..];
    }
  }

  /** The names `generatePossibleUsernames` returns, in insertion order. */
  function PossibleUsernames(companyName: string): seq<string> {
    AtLeastTwo(AddAll([], Variations(companyName)))
  }

  /** Collecting into a set and keeping the names of two or more characters yields each
      name once ... */
  lemma CollectNoDup(vs: seq<string>)
    ensures NoDup(AtLeastTwo(AddAll([], vs)))
  {
    AddAllNoDup([], vs);
    AtLeastTwoNoDup(AddAll([], vs));
  }

  /** ... and exactly the names of two or more characters. */
  lemma CollectLong(vs: seq<string>)
    ensures forall v :: v in AtLeastTwo(AddAll([], vs)) <==> v in vs && |v| >= 2
  {
    AddAllMembers([], vs);
    AtLeastTwoMembers(AddAll([], vs));
  }

  /** A name offered at index `i` with two or more characters is returned. */
  lemma CollectLongHas(vs: seq<string>, i: nat)
    requires i < |vs| && |vs[i]| >= 2
    ensures vs[i] in AtLeastTwo(AddAll([], vs))
  {
    CollectLong(vs);
  }

  /** The names returned hold no duplicate; `clean + "oficial"` is always among them and
      the initials are whenever there are two or more non-empty words. */
  lemma UsernamesMeaning(original: string, cleaned: string, words: seq<string>)
    requires forall i :: 0 <= i < |words| ==> words[i] != ""
    ensures var r := AtLeastTwo(AddAll([], VariationsOf(original, cleaned, words)));
            && NoDup(r)
            && Filter(cleaned, NotSpace) + "oficial" in r
            && (|words| > 1 ==> FirstChars(words) in r)
  {
    var vs := VariationsOf(original, cleaned, words);
    CollectNoDup(vs);
    assert vs[1] == Filter(cleaned, NotSpace) + "oficial";
    CollectLongHas(vs, 1);
    if |words| > 1 {
      assert vs[10] == FirstChars(words);
      CollectLongHas(vs, 10);
    }
  }

  /** Adding seven lists one after the other is adding their concatenation. */
  lemma {:induction false} AddSteps(a: seq<string>, b: seq<string>, c: seq<string>, d: seq<string>,
                                    e: seq<string>, f: seq<string>, g: seq<string>)
    ensures AddAll(AddAll(AddAll(AddAll(AddAll(AddAll(AddAll([], a), b), c), d), e), f), g)
            == AddAll([], a + (b + (c + (d + (e + (f + g))))))
  {
    var w1 := AddAll([], a);
    var w2 := AddAll(w1, b);
    var w3 := AddAll(w2, c);
    var w4 := AddAll(w3, d);
    var w5 := AddAll(w4, e);
    AddAllAppend(w5, f, g);
    AddAllAppend(w4, e, f + g);
    AddAllAppend(w3, d, e + (f + g));
    AddAllAppend(w2, c, d + (e + (f + g)));
    AddAllAppend(w1, b, c + (d + (e + (f + g))));
    AddAllAppend([], a, b + (c + (d + (e + (f + g)))));
  }

  /** `generatePossibleUsernames`. */
  method GeneratePossibleUsernames(companyName: string) returns (r: seq<string>)
    ensures r == PossibleUsernames(companyName)
  {
    r := CollectUsernames(ToLower(companyName), CleanedName(companyName), NameWords(companyName));
  }

  /** The body of `generatePossibleUsernames` once the name has been lower-cased
      (`originalName`), cleaned (`cleanedName`) and split into words. */
  method CollectUsernames(originalName: string, cleanedName: string, words: seq<string>) returns (r: seq<string>)
    ensures r == AtLeastTwo(AddAll([], VariationsOf(originalName, cleanedName, words)))
  {
    var clean := Filter(cleanedName, NotSpace);
    // Each step adds its names to the set in the order the source adds them.
    var variations := AddAll([], [clean, clean + "oficial", clean + "_oficial", clean + ".oficial",
                                  "oficial" + clean, clean + "br", clean + "_br"]);
    ghost var w1 := variations;
    variations := AddAll(variations, [SpacesTo(cleanedName, '_'), SpacesTo(cleanedName, '.'),
                                      Filter(cleanedName, NotSpace)]);
    ghost var w2 := variations;
    if |words| > 1 {
      var initials := FirstChars(words);
      var four := [initials, initials + "oficial", initials + "_oficial", initials + "br"];
      variations := AddAll(variations, four);
      var firstWordWithInitials := words[0] + FirstChars(words[1..]);
      variations := AddNew(variations, firstWordWithInitials);
      AddAllSnoc(w2, four, firstWordWithInitials);
      assert four + [firstWordWithInitials] == InitialNames(words);
    }
    assert variations == AddAll(w2, InitialNames(words));
    ghost var w3 := variations;
    if |words| > 0 {
      var mainBrand := words[0];
      variations := AddAll(variations, [mainBrand, mainBrand + "oficial", mainBrand + "_oficial",
                                        mainBrand + "br", mainBrand + "_br"]);
    }
    assert variations == AddAll(w3, BrandNames(words));
    ghost var w4 := variations;
    variations := AddAll(variations, [clean + "tech", clean + "_tech", clean + "company", clean + "_company",
                                      clean + "corp", clean + "_corp"]);
    ghost var w5 := variations;
    for i := 1 to 4
      invariant variations == AddAll(w5, NumberNames(clean, i))
    {
      AddAllSnoc(w5, NumberNames(clean, i), clean + NatToString(i));
      AddAllSnoc(w5, NumberNames(clean, i) + [clean + NatToString(i)], clean + "_" + NatToString(i));
      assert NumberNames(clean, i + 1) == NumberNames(clean, i) + [clean + NatToString(i)] + [clean + "_" + NatToString(i)];
      variations := AddNew(variations, clean + NatToString(i));
      variations := AddNew(variations, clean + "_" + NatToString(i));
    }
    variations := AddAll(variations, [Filter(originalName, LowerOrDigit), Filter(originalName, NotSpace),
                                      SpacesTo(originalName, '_')]);
    AddSteps(BaseNames(clean), SeparatorNames(cleanedName), InitialNames(words), BrandNames(words),
             SuffixNames(clean), NumberNames(clean, 4), OriginalNames(originalName));
    r := AtLeastTwo(variations);
  }

  // ------------------------------------------------------------ couldBePersonUsername

  /** `personName.toLowerCase().split(' ').filter(part => part.length > 0)`. */
  function NameParts(personName: string): (ps: seq<string>)
    ensures forall i :: 0 <= i < |ps| ==> ps[i] != ""
  {
    LongerThan(Split(ToLower(personName), ' '), 0)
  }

  function First(parts: seq<string>): string requires parts != [] { parts[0] }
  function Last(parts: seq<string>): string requires parts != [] { if |parts| > 1 then parts[|parts| - 1] else parts[0] }
  function Middle(parts: seq<string>): string { if |parts| > 2 then parts[1] else "" }

  /** The creative combinations, tried in this order. */
  function CreativePatterns(first: string, last: string): seq<string>
    requires first != "" && last != ""
  {
    [first + last, last + first, [first[0]] + last, first + [last[0]], last + [first[0]], last, first]
  }

  const GenericUsernames: seq<string> := ["admin", "user", "test", "oficial", "company", "brand"]

  predicate Generic(cleanUsername: string) {
    exists g :: 0 <= g < |GenericUsernames| && Contains(cleanUsername, GenericUsernames[g])
  }

  predicate AtEitherEnd(s: string, w: string) { StartsWith(s, w) || EndsWith(s, w) }

  /** The points of the seven direct tests, one term per test of the source. */
  function DirectScore(cu: string, parts: seq<string>): int
    requires parts != [] && forall i :: 0 <= i < |parts| ==> parts[i] != ""
  {
    var first := First(parts);
    var last := Last(parts);
    var middle := Middle(parts);
    Points(Contains(cu, first), 3)
    + Points(Contains(cu, last), 4)
    + Points(middle != "" && Contains(cu, middle), 2)
    + Points(Contains(cu, FirstChars(parts)), 3)
    + Points(Contains(cu, [first[0]] + last), 4)
    + Points(AtEitherEnd(cu, last), 5)
    + Points(AtEitherEnd(cu, first), 3)
  }

  function Points(test: bool, n: int): int { if test then n else 0 }

  /** Some creative combination occurs in the username. */
  predicate CreativeHit(cu: string, first: string, last: string)
    requires first != "" && last != ""
  {
    exists k :: 0 <= k < 7 && Contains(cu, CreativePatterns(first, last)[k])
  }

  /** The score before the generic-username penalty. */
  function BaseScore(cu: string, parts: seq<string>): int
    requires parts != [] && forall i :: 0 <= i < |parts| ==> parts[i] != ""
  {
    DirectScore(cu, parts) + Points(CreativeHit(cu, First(parts), Last(parts)), 4)
  }

  function PersonScore(cu: string, parts: seq<string>): int
    requires parts != [] && forall i :: 0 <= i < |parts| ==> parts[i] != ""
  {
    BaseScore(cu, parts) - (if Generic(cu) then 5 else 0)
  }

  const PersonThreshold := 6

  /** `couldBePersonUsername`: false for a name without tokens; otherwise a match iff the
      score reaches 6. */
  method CouldBePersonUsername(username: string, personName: string) returns (isMatch: bool)
    ensures NameParts(personName) == [] ==> !isMatch
    ensures NameParts(personName) != [] ==>
              (isMatch <==> PersonScore(CleanUsername(username), NameParts(personName)) >= PersonThreshold)
  {
    var nameParts := NameParts(personName);
    if |nameParts| == 0 {
      return false;
    }
    var cleanUsername := CleanUsername(username);
    var score := UsernameScore(cleanUsername, nameParts);
    isMatch := score >= PersonThreshold;
  }

  /** The scoring part of `couldBePersonUsername`, on the cleaned username and the name parts. */
  method UsernameScore(cleanUsername: string, nameParts: seq<string>) returns (score: int)
    requires nameParts != [] && forall i :: 0 <= i < |nameParts| ==> nameParts[i] != ""
    ensures score == PersonScore(cleanUsername, nameParts)
  {
    score := 0;
    var firstName := nameParts[0];
    var lastName := if |nameParts| > 1 then nameParts[|nameParts| - 1] else firstName;
    var middleName := if |nameParts| > 2 then nameParts[1] else "";
    // `firstName` is a non-empty part, so the `!firstName` early return cannot fire.
    var initials := FirstChars(nameParts);
    var hasFirst := Contains(cleanUsername, firstName);
    var hasLast := Contains(cleanUsername, lastName);
    var hasMiddle := middleName != "" && Contains(cleanUsername, middleName);
    var hasInitials := Contains(cleanUsername, initials);
    var hasInitialLast := Contains(cleanUsername, [firstName[0]] + lastName);
    var lastAtEnd := StartsWith(cleanUsername, lastName) || EndsWith(cleanUsername, lastName);
    var firstAtEnd := StartsWith(cleanUsername, firstName) || EndsWith(cleanUsername, firstName);
    if hasFirst { score := score + 3; }
    if hasLast { score := score + 4; }
    if hasMiddle { score := score + 2; }
    if hasInitials { score := score + 3; }
    if hasInitialLast { score := score + 4; }
    if lastAtEnd { score := score + 5; }
    if firstAtEnd { score := score + 3; }
    assert score == DirectScore(cleanUsername, nameParts);
    var bonus := CreativeBonus(cleanUsername, firstName, lastName);
    score := score + bonus;
    var generic := exists g :: 0 <= g < |GenericUsernames| && Contains(cleanUsername, GenericUsernames[g]);
    if generic {
      score := score - 5;
    }
  }

  /** The creative-pattern loop of `couldBePersonUsername`: 4 points for the first
      combination found, at most once. */
  method CreativeBonus(cleanUsername: string, firstName: string, lastName: string) returns (bonus: int)
    requires firstName != "" && lastName != ""
    ensures bonus == Points(CreativeHit(cleanUsername, firstName, lastName), 4)
  {
    bonus := 0;
    var creativePatterns := CreativePatterns(firstName, lastName);
    var k := 0;
    while k < |creativePatterns|
      invariant 0 <= k <= |creativePatterns|
      invariant forall j :: 0 <= j < k ==> !Contains(cleanUsername, creativePatterns[j])
    {
      if creativePatterns[k] != "" && Contains(cleanUsername, creativePatterns[k]) {
        bonus := 4;
        break;
      }
      k := k + 1;
    }
  }


  /** A username containing one of the generic words loses exactly 5 points. */
  lemma GenericPenalty(cu: string, parts: seq<string>)
    requires parts != [] && forall i :: 0 <= i < |parts| ==> parts[i] != ""
    ensures Generic(cu) ==> PersonScore(cu, parts) == BaseScore(cu, parts) - 5
    ensures !Generic(cu) ==> PersonScore(cu, parts) == BaseScore(cu, parts)
  {
  }

  predicate NoBreakChar(s: string) {
    forall i :: 0 <= i < |s| ==> s[i] != ' ' && NotSeparator(s[i])
  }

  /** Lower-casing never produces a space, '.', '_' or '-' from another character. */
  lemma LowerKeepsBreaks(s: string)
    requires NoBreakChar(s)
    ensures NoBreakChar(ToLower(s))
  {
  }

  /** `split(' ')` at a first space. */
  lemma {:induction false} SplitAtSpace(a: string, b: string)
    requires ' ' !in a
    ensures Split(a + " " + b, ' ') == [a] + Split(b, ' ')
  {
    var s := a + " " + b;
    assert s[|a|] == ' ';
    assert forall j :: 0 <= j < |a| ==> s[j] == a[j];
    assert IndexOf(s, ' ') == |a|;
    assert s[..|a|] == a;
    assert s[|a| + 1..] == b;
  }

  lemma SplitNoSpace(a: string)
    requires ' ' !in a
    ensures Split(a, ' ') == [a]
  {
  }

  /** The parts of a two-token name are its lower-cased tokens. */
  lemma TwoPartName(first: string, last: string)
    requires first != "" && last != "" && NoBreakChar(first) && NoBreakChar(last)
    ensures NameParts(first + " " + last) == [ToLower(first), ToLower(last)]
  {
    var f, l := ToLower(first), ToLower(last);
    LowerKeepsBreaks(first);
    LowerKeepsBreaks(last);
    ToLowerAppend(first + " ", last);
    ToLowerAppend(first, " ");
    assert ToLower(" ") == " ";
    SplitAtSpace(f, l);
    SplitNoSpace(l);
    assert Split(f + " " + l, ' ') == [f, l];
    assert ToLower(first + " " + last) == f + " " + l;
    LongerThanNonEmpty([f, l], 0);
  }

  /** The parts of a three-token name are its lower-cased tokens. */
  lemma ThreePartName(first: string, middle: string, last: string)
    requires first != "" && middle != "" && last != ""
    requires NoBreakChar(first) && NoBreakChar(middle) && NoBreakChar(last)
    ensures NameParts(first + " " + middle + " " + last) == [ToLower(first), ToLower(middle), ToLower(last)]
  {
    var f, m, l := ToLower(first), ToLower(middle), ToLower(last);
    LowerKeepsBreaks(first);
    LowerKeepsBreaks(middle);
    LowerKeepsBreaks(last);
    LowerThreeTokens(first, middle, last);
    SplitThreeTokens(f, m, l);
    LongerThanNonEmpty([f, m, l], 0);
  }

  lemma LowerThreeTokens(a: string, b: string, c: string)
    ensures ToLower(a + " " + b + " " + c) == ToLower(a) + " " + ToLower(b) + " " + ToLower(c)
  {
    assert a + " " + b + " " + c == (a + " ") + (b + " ") + c;
    ToLowerAppend((a + " ") + (b + " "), c);
    ToLowerAppend(a + " ", b + " ");
    ToLowerAppend(a, " ");
    ToLowerAppend(b, " ");
    assert ToLower(" ") == " ";
  }

  lemma SplitThreeTokens(a: string, b: string, c: string)
    requires ' ' !in a && ' ' !in b && ' ' !in c
    ensures Split(a + " " + b + " " + c, ' ') == [a, b, c]
  {
    assert a + " " + b + " " + c == a + " " + (b + " " + c);
    SplitAtSpace(a, b + " " + c);
    SplitAtSpace(b, c);
    SplitNoSpace(c);
  }

  /** Keeping the words longer than `min` keeps a list whose words all are. */
  lemma {:induction false} LongerThanNonEmpty(ws: seq<string>, min: nat)
    requires forall i :: 0 <= i < |ws| ==> |ws[i]| > min
    ensures LongerThan(ws, min) == ws
  {
    if ws != [] {
      LongerThanNonEmpty(ws[1..], min);
      assert ws == [ws[0]] + ws[1..];
    }
  }

  /** Cleaning the username drops the separator between the two tokens. */
  lemma JoinedUsername(first: string, last: string, sep: string)
    requires NoBreakChar(first) && NoBreakChar(last)
    requires sep in ["", ".", "_", "-"]
    ensures CleanUsername(first + sep + last) == ToLower(first) + ToLower(last)
  {
    var f, l := ToLower(first), ToLower(last);
    LowerKeepsBreaks(first);
    LowerKeepsBreaks(last);
    ToLowerAppend(first + sep, last);
    ToLowerAppend(first, sep);
    assert ToLower(sep) == sep;
    assert Filter(sep, NotSeparator) == [];
    FilterAppend(f + sep, l, NotSeparator);
    FilterAppend(f, sep, NotSeparator);
    FilterKeepsAll(f, NotSeparator);
    FilterKeepsAll(l, NotSeparator);
  }

  /** The occurrences a concatenation `f + l` always has. */
  lemma ConcatenationFacts(f: string, l: string)
    ensures Contains(f + l, f) && Contains(f + l, l) && Contains(f + l, f + l)
    ensures StartsWith(f + l, f) && EndsWith(f + l, l)
  {
    var cu := f + l;
    assert OccursAt(cu, f, 0) by { assert cu[0..|f|] == f; }
    assert OccursAt(cu, l, |f|) by { assert cu[|f|..|f| + |l|] == l; }
    assert OccursAt(cu, cu, 0) by { assert cu[0..|cu|] == cu; }
    assert cu[..|f|] == f;
    assert cu[|cu| - |l|..] == l;
  }

  /** A username that is first name then last name earns the first-name, last-name,
      last-name-at-an-end, first-name-at-an-end and creative-pattern points. */
  lemma ConcatenationScore(f: string, l: string)
    requires f != "" && l != ""
    ensures BaseScore(f + l, [f, l]) >= 19
  {
    ConcatenationFacts(f, l);
    assert CreativePatterns(f, l)[0] == f + l;
    assert CreativeHit(f + l, f, l);
  }

  /** A two-part name whose parts hold no space, '.', '_' or '-': the username made of the
      two parts, with or without one of '.', '_', '-' between them, scores at least 19
      before the penalty and is always a match. */
  lemma FirstLastMatches(first: string, last: string, sep: string)
    requires first != "" && last != "" && NoBreakChar(first) && NoBreakChar(last)
    requires sep in ["", ".", "_", "-"]
    ensures var parts := NameParts(first + " " + last);
            && parts == [ToLower(first), ToLower(last)]
            && BaseScore(CleanUsername(first + sep + last), parts) >= 19
            && PersonScore(CleanUsername(first + sep + last), parts) >= PersonThreshold
  {
    TwoPartName(first, last);
    JoinedUsername(first, last, sep);
    ConcatenationScore(ToLower(first), ToLower(last));
  }

  /** Occurrence checks used by the concrete example below. */
  lemma NotContainsChar(s: string, sub: string)
    requires sub != [] && sub[0] !in s
    ensures !Contains(s, sub)
  {
    forall i: nat | i <= |s| ensures !OccursAt(s, sub, i) {
      if i < |s| {
        NoOccurrence(s, sub, i);
      }
    }
  }

  /** The documented example: "Pedro Lucas Brito" and the username "brito_rx" score 13
      (last name 4, last name at an end 5, creative pattern "brito" 4) and match. */
  lemma PedroBritoExample()
    ensures NameParts("Pedro Lucas Brito") == ["pedro", "lucas", "brito"]
    ensures CleanUsername("brito_rx") == "britorx"
    ensures PersonScore("britorx", ["pedro", "lucas", "brito"]) == 13
  {
    PedroParts();
    BritoUsername();
    BritoScore();
  }

  lemma PedroParts()
    ensures NameParts("Pedro Lucas Brito") == ["pedro", "lucas", "brito"]
  {
    assert "Pedro Lucas Brito" == "Pedro" + " " + "Lucas" + " " + "Brito";
    PedroWords();
    ThreePartName("Pedro", "Lucas", "Brito");
  }

  lemma PedroWords()
    ensures NoBreakChar("Pedro") && NoBreakChar("Lucas") && NoBreakChar("Brito")
    ensures ToLower("Pedro") == "pedro" && ToLower("Lucas") == "lucas" && ToLower("Brito") == "brito"
  {
  }

  lemma BritoUsername()
    ensures CleanUsername("brito_rx") == "britorx"
  {
    assert ToLower("brito_rx") == "brito" + "_" + "rx";
    FilterAppend("brito" + "_", "rx", NotSeparator);
    FilterAppend("brito", "_", NotSeparator);
    FilterKeepsAll("brito", NotSeparator);
    FilterKeepsAll("rx", NotSeparator);
  }

  lemma BritoScore()
    ensures PersonScore("britorx", ["pedro", "lucas", "brito"]) == 13
  {
    BritoDirect();
    BritoCreative();
    NotGeneric();
  }

  /** Only the last name and its position at the start earn direct points. */
  lemma BritoDirect()
    ensures DirectScore("britorx", ["pedro", "lucas", "brito"]) == 9
  {
    var cu := "britorx";
    var parts := ["pedro", "lucas", "brito"];
    assert First(parts) == "pedro" && Last(parts) == "brito" && Middle(parts) == "lucas";
    assert FirstChars(parts) == "plb";
    assert ['p'] + "brito" == "pbrito";
    NotContainsChar(cu, "pedro");
    NotContainsChar(cu, "lucas");
    NotContainsChar(cu, "plb");
    NotContainsChar(cu, "pbrito");
    assert OccursAt(cu, "brito", 0) by { assert cu[0..5] == "brito"; }
    assert StartsWith(cu, "brito") by { assert cu[..5] == "brito"; }
    assert !StartsWith(cu, "pedro") by { assert cu[..5][0] == 'b'; }
    assert !EndsWith(cu, "pedro") by { assert cu[2..][0] == 'i'; }
  }

  /** The creative pattern "brito" (the last name) occurs. */
  lemma BritoCreative()
    ensures CreativeHit("britorx", "pedro", "brito")
  {
    assert CreativePatterns("pedro", "brito")[5] == "brito";
    assert OccursAt("britorx", "brito", 0) by { assert "britorx"[0..5] == "brito"; }
  }

  lemma NotGeneric()
    ensures !Generic("britorx")
  {
    var cu := "britorx";
    NotContainsChar(cu, "admin");
    NotContainsChar(cu, "user");
    NotContainsChar(cu, "company");
    assert !Contains(cu, "test") by {
      forall i: nat | i <= |cu| ensures !OccursAt(cu, "test", i) {
        if i < |cu| && cu[i] != 't' {
          NoOccurrence(cu, "test", i);
        } else if i == 3 {
          assert cu[3..7][1] == 'o';
        }
      }
    }
    assert !Contains(cu, "oficial") by {
      forall i: nat | i <= |cu| ensures !OccursAt(cu, "oficial", i) {
        if i < |cu| && cu[i] != 'o' {
          NoOccurrence(cu, "oficial", i);
        }
      }
    }
    assert !Contains(cu, "brand") by {
      forall i: nat | i <= |cu| ensures !OccursAt(cu, "brand", i) {
        if i < |cu| && cu[i] != 'b' {
          NoOccurrence(cu, "brand", i);
        } else if i == 0 {
          assert cu[0..5][2] == 'i';
        }
      }
    }
  }
}
