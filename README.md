# PersonFinder backend core in Dafny

PersonFinder looks people up by email or by company. It asks several providers: Clearbit, Hunter.io, a key-free "basic" provider and a development mock. It merges what they return into one `Person` record under a first-truthy-wins rule, and caches results in an in-memory repository. It also counts requests in an in-memory metrics table, serves those in Prometheus text format, and rate-limits clients with a fixed one-minute window.

This project models that core as Dafny modules, one per source file, and proves properties of the model:

| module | file | models |
|---|---|---|
| `PersonEntity` | person.dfy | `Person`: email and phone validators, `create`, the derived flags, `toJSON` |
| `CompanyEntity` | company.dfy | `Company`: domain validator, `create`, `getEmailDomain`, `toJSON` |
| `PersonSearch` | search_service.dfy | `PersonSearchService`: `combineResults`, `searchByEmail`, `searchByCompany` |
| `SearchUseCase` | usecase.dfy | `SearchPersonUseCase.execute` and `isRecentData` |
| `PersonRepository` | repository.dfy | `InMemoryPersonRepository`, a class over an insertion-ordered map |
| `OrderedMaps` | ordered_map.dfy | the JavaScript `Map` (insertion order, `set`, `delete`, `values`) |
| `Resilience` | resilience.dfy | the retry interceptor and the circuit breaker shared by Clearbit and Hunter |
| `Clearbit`, `Hunter` | clearbit.dfy, hunter.dfy | the two HTTP providers: breaker guard, retries, response mapping |
| `InstagramMatching` | instagram.dfy | suffix stripping, keyword and username generators, the two username scorers |
| `Basic` | basic.dfy | name/company/domain generators, role candidates, username and slug matching |
| `Mock` | mock.dfy | the mock provider's lookups, filters and generated stand-ins |
| `Metrics` | metrics.dfy | `MetricsCollector` (counters and gauges) |
| `Controller` | controller.dfy | `formatPrometheusMetrics` and the counter classification of `searchPerson` |
| `RateLimit` | ratelimit.dfy | the per-client rate-limit middleware |
| `JsText`, `Wrappers` | jstext.dfy, wrappers.dfy | the JavaScript string operations used (`split`, `trim`, `includes`, `toLowerCase`, the `\s` class, number rendering); `Option` and `Result` |

Conventions:
- `null` and `undefined` are `None`, except for the name parts of a Clearbit person, where the template literal renders a missing part as "undefined" and a JSON `null` as "null".
- A thrown `Error` becomes `Failure(message)`.
- `Promise.allSettled` over the providers becomes a sequence of `Fulfilled`/`Rejected` values in provider order.
- An HTTP exchange becomes an oracle `respond(k)`, the outcome of the k-th attempt.
- `Date.now()` becomes parameters (`now`, and `later` for the instant a failure is stamped after retries).
- Generated ids are parameters, and `Math.random()` is a real parameter in [0, 1).

Stateful code is written imperatively, following the source:
- The repository, the metrics collector, the circuit breaker and the rate limiter are classes. Their methods change their fields.
- The loops of the source are `while`/`for` loops with invariants, proved against specification functions. Examples:
  - the merge of `combineResults`;
  - the candidate flattening of `searchByCompany`;
  - the repository scans;
  - the retry loop;
  - the keyword and username set-building;
  - the score accumulation with `break`;
  - the Prometheus `output +=` loops.

Behaviours of the code worth noting:
- Clearbit and Hunter call `onFailure` on every caught error, 404 and 429 included. Not-found therefore counts toward opening the circuit.
- The circuit is open while `now - lastFailureTime <= 60000`. It closes, and the count resets, only once more than 60000 ms have passed.
- An invalid merged email or phone in `searchByEmail` is not dropped. `Person.create` throws, and the use case answers with that message.
- In `couldBeCompanyUsername`, whitespace is removed before the split. So there is at most one word, and a username matches iff its cleaned form contains the cleaned company name.
- The email path of `execute` answers from the cache only when the record is fresh. The company path answers from any non-empty cached list, whatever its age.

## Model

| member | source | states |
|---|---|---|
| PersonEntity.Or | backend/src/domain/services/PersonSearchService.ts:99-106 | JavaScript `or` on optional strings: `a` when it is truthy (present and non-empty), `b` otherwise |
| PersonEntity.IfTruthy | backend/src/domain/services/PersonSearchService.ts:43-48 | `...(x && {f: x})` passes the field on iff it is truthy |
| PersonEntity.ValidateEmailIsPattern | backend/src/domain/entities/Person.ts:21-24 | the email check accepts exactly the language of `^[^\s@]+@[^\s@]+\.[^\s@]+$`, both directions |
| PersonEntity.ValidatePhoneIsPattern | backend/src/domain/entities/Person.ts:26-29 | the phone check holds iff the string is an optional '+' then one or more digits, whitespace, '-', '(' or ')', and has at least 10 characters |
| PersonEntity.Create | backend/src/domain/entities/Person.ts:41-72 | fails with the email error iff a truthy email is invalid; fails with the phone error iff the email passes and a truthy phone is invalid; succeeds iff both pass, storing every field unchanged with the given id and time |
| PersonEntity.CreateIgnoresUncheckedFields | backend/src/domain/entities/Person.ts:61-71 | success and the error do not depend on name, company, instagram, whatsapp, linkedIn or twitter |
| PersonEntity.CreatedFlags | backend/src/domain/entities/Person.ts:32-38 | a created person has contact info iff whatsapp, phone or email was truthy, and social media iff instagram, linkedIn or twitter was |
| PersonEntity.ToJson | backend/src/domain/entities/Person.ts:74-90 | the JSON object carries every stored field unchanged plus `hasContactInfo` and `hasSocialMedia` |
| CompanyEntity.ValidLabelIsPattern | backend/src/domain/entities/Company.ts:19-22 | the label rule (1 to 63 of [A-Za-z0-9-], starting with a letter or digit, a 63-character label ending with one) is exactly the label part of the expression |
| CompanyEntity.ValidateDomainIsPattern | backend/src/domain/entities/Company.ts:19-22 | the domain check accepts exactly label "." tld, the tld being two or more ASCII letters |
| CompanyEntity.ValidDomainHasOneDot | backend/src/domain/entities/Company.ts:19-22 | an accepted domain has exactly one '.' |
| CompanyEntity.TwoLevelDomainRejected | backend/src/domain/entities/Company.ts:19-22 | "x.com.br" is rejected |
| CompanyEntity.Create | backend/src/domain/entities/Company.ts:29-52 | fails with the domain error iff the domain is invalid; otherwise stores every field unchanged |
| CompanyEntity.CreatedEmailDomain | backend/src/domain/entities/Company.ts:24-26 | `getEmailDomain` of a created company is the domain it was created with, which is valid |
| CompanyEntity.ToJson | backend/src/domain/entities/Company.ts:54-66 | the JSON object carries exactly the stored fields |
| PersonSearch.MergeInto | backend/src/domain/services/PersonSearchService.ts:96-106 | one merge step sets each of the eight fields to `acc.f` when truthy, else `data.f` |
| PersonSearch.ContributorsAppend | backend/src/domain/services/PersonSearchService.ts:94-95 | the values the merge reads from two runs of results are those of each run, in order |
| PersonSearch.SkippedResult | backend/src/domain/services/PersonSearchService.ts:95 | a rejected result, or one fulfilled with null, contributes nothing wherever it stands |
| PersonSearch.FoldIsFirstTruthy | backend/src/domain/services/PersonSearchService.ts:94-108 | the left fold the loop performs gives, per field, the first truthy value in provider order |
| PersonSearch.FirstTruthyMeaning | backend/src/domain/services/PersonSearchService.ts:98-106 | a merged field is truthy iff some contributor's is, and is then the value of the first such contributor; otherwise it is the last contributor's value |
| PersonSearch.CombineResults | backend/src/domain/services/PersonSearchService.ts:91-111 | null iff no provider fulfilled with a non-null value; otherwise every field is the first truthy value among the contributors |
| PersonSearch.SearchByEmail | backend/src/domain/services/PersonSearchService.ts:22-50 | an invalid email throws first; no merged object or no truthy merged name gives null; otherwise `Person.create` on the merged name, merged email or the query, and the truthy optional fields |
| PersonSearch.BuildAppend | backend/src/domain/services/PersonSearchService.ts:63-86 | the output for concatenated candidate lists is the concatenation of their outputs, in order |
| PersonSearch.SkippedCandidate | backend/src/domain/services/PersonSearchService.ts:66-82 | a candidate without a truthy name, or whose creation throws, is dropped without changing what the others produce |
| PersonSearch.BuildShape | backend/src/domain/services/PersonSearchService.ts:61-88 | the output is no longer than the candidate list; every output person has a candidate's truthy name and the candidate's company, or the query when it has none |
| PersonSearch.SearchByCompany | backend/src/domain/services/PersonSearchService.ts:52-89 | a blank or whitespace-only name throws; otherwise the persons created from the fulfilled providers' candidates, in provider order then list order |
| SearchUseCase.RecentMeansYoungerThanThirtyMinutes | backend/src/application/usecases/SearchPersonUseCase.ts:113-116 | fresh iff updated less than 1800000 ms ago; exactly thirty minutes old is stale |
| SearchUseCase.SaveAll | backend/src/application/usecases/SearchPersonUseCase.ts:89-92 | saving a list keeps the store well-formed and id-keyed |
| SearchUseCase.SaveAllFindable | backend/src/application/usecases/SearchPersonUseCase.ts:89-92 | after saving a list, each person not overwritten by a later one with its id is found under its id |
| SearchUseCase.Execute | backend/src/application/usecases/SearchPersonUseCase.ts:30-111 | blank query and unknown type fail without touching the store; email path answers a fresh cached record as a hit, otherwise the aggregation's error, "not found" for null, or the new person saved and answered with `cached: false`; company path answers any non-empty cached list as a hit, otherwise succeeds with the aggregated list (even empty), every person saved |
| PersonRepository.FirstByEmailIsFirst | backend/src/infrastructure/repositories/InMemoryPersonRepository.ts:16-23 | finds nothing iff no person's email equals the query ignoring case; otherwise the earliest match in insertion order |
| PersonRepository.FirstByEmailAppend | backend/src/infrastructure/repositories/InMemoryPersonRepository.ts:16-23 | a person appended after a match does not change what is found |
| PersonRepository.ByCompanyMembers | backend/src/infrastructure/repositories/InMemoryPersonRepository.ts:25-35 | the company lookup keeps exactly the persons whose company contains the query ignoring case |
| PersonRepository.FirstInsertedWins | backend/src/infrastructure/repositories/InMemoryPersonRepository.ts:16-40 | saving a new id with an email already stored leaves the earlier person as the email lookup's answer |
| PersonRepository.InMemoryPersonRepository.constructor | backend/src/infrastructure/repositories/InMemoryPersonRepository.ts:9 | the store starts empty |
| PersonRepository.InMemoryPersonRepository.FindById | backend/src/infrastructure/repositories/InMemoryPersonRepository.ts:11-14 | the person stored under the id, or null |
| PersonRepository.InMemoryPersonRepository.FindByEmail | backend/src/infrastructure/repositories/InMemoryPersonRepository.ts:16-23 | the scan returns the first match in insertion order, or null |
| PersonRepository.InMemoryPersonRepository.FindByCompany | backend/src/infrastructure/repositories/InMemoryPersonRepository.ts:25-35 | the scan returns every matching person in insertion order |
| PersonRepository.InMemoryPersonRepository.Save | backend/src/infrastructure/repositories/InMemoryPersonRepository.ts:37-40 | the store becomes `set(id, person)` and the person is returned |
| PersonRepository.InMemoryPersonRepository.Update | backend/src/infrastructure/repositories/InMemoryPersonRepository.ts:42-49 | an absent id throws the not-found message and changes nothing; a present one is replaced |
| PersonRepository.InMemoryPersonRepository.Delete | backend/src/infrastructure/repositories/InMemoryPersonRepository.ts:51-53 | the store becomes `delete(id)` |
| PersonRepository.InMemoryPersonRepository.Clear | backend/src/infrastructure/repositories/InMemoryPersonRepository.ts:56-58 | the store becomes empty |
| PersonRepository.InMemoryPersonRepository.GetAll | backend/src/infrastructure/repositories/InMemoryPersonRepository.ts:61-63 | every stored person, in insertion order |
| OrderedMaps.SetGet | backend/src/infrastructure/repositories/InMemoryPersonRepository.ts:11-40 | after `set(k, v)`, `get(k)` is `v` and every other key reads as before |
| OrderedMaps.SetValues | backend/src/infrastructure/repositories/InMemoryPersonRepository.ts:37-63 | a new key's value goes last in iteration order; a present key's value is replaced where it stands |
| OrderedMaps.DeleteGet | backend/src/infrastructure/repositories/InMemoryPersonRepository.ts:51-53 | after `delete(k)`, `k` is absent, other keys read as before, and deleting an absent key changes nothing |
| Resilience.RequestWithRetry | backend/src/infrastructure/providers/ClearbitProvider.ts:27-49 | at most three retries, each after a status >= 500 error; the k-th retry waits 2^k·1000 ms; the caller receives the first outcome that is not retried |
| Resilience.RetryWaitBound | backend/src/infrastructure/providers/HunterProvider.ts:34-41 | the retry waits add up to at most 14000 ms, exactly 14000 after three retries |
| Resilience.AfterFailuresCount | backend/src/infrastructure/providers/ClearbitProvider.ts:159-162 | a run of failures adds its length to the count and stamps the last failure's time |
| Resilience.FiveFailuresOpen | backend/src/infrastructure/providers/ClearbitProvider.ts:140-162 | five or more failures open the circuit exactly while at most 60000 ms have passed since the last one; a success closes it |
| Resilience.FewFailuresClosed | backend/src/infrastructure/providers/ClearbitProvider.ts:140-162 | fewer than five failures after a success never open the circuit |
| Resilience.CircuitBreaker.constructor | backend/src/infrastructure/providers/ClearbitProvider.ts:12-13 | count and last failure time start at 0 |
| Resilience.CircuitBreaker.IsOpen | backend/src/infrastructure/providers/HunterProvider.ts:148-160 | closed and unchanged below five failures; otherwise open iff `now - lastFailureTime <= 60000`, the count reset to 0 when closed |
| Resilience.CircuitBreaker.OnSuccess | backend/src/infrastructure/providers/HunterProvider.ts:162-164 | the count becomes 0 |
| Resilience.CircuitBreaker.OnFailure | backend/src/infrastructure/providers/HunterProvider.ts:166-169 | the count grows by one and the failure time becomes the clock reading |
| Clearbit.DisplayName | backend/src/infrastructure/providers/ClearbitProvider.ts:72 | the full name when truthy, otherwise "given family" trimmed, a missing part rendered "undefined" and a JSON `null` part "null"; an absent `person.name` makes every part missing |
| Clearbit.ProfileUrl | backend/src/infrastructure/providers/ClearbitProvider.ts:75-76 | a URL only for a truthy handle, the prefix followed by the handle |
| Clearbit.MapCombined | backend/src/infrastructure/providers/ClearbitProvider.ts:65-78 | null iff there is no person; otherwise display name, email, company name, LinkedIn and Twitter URLs, phone |
| Clearbit.NamelessPerson | backend/src/infrastructure/providers/ClearbitProvider.ts:72 | a person whose `name` is absent or null is named "undefined undefined" |
| Clearbit.NullFamilyName | backend/src/infrastructure/providers/ClearbitProvider.ts:72 | given name "Ana" with a JSON `null` full and family name gives "Ana null" |
| Clearbit.NullNameParts | backend/src/infrastructure/providers/ClearbitProvider.ts:72 | a name whose three parts are JSON `null` gives "null null" |
| Clearbit.ClearbitProvider.SearchByEmail | backend/src/infrastructure/providers/ClearbitProvider.ts:52-98 | open circuit: null, no request, breaker unchanged; otherwise the mapped response and a success, or null and one failure for every error (404 and 429 included) and for an absent body |
| Clearbit.ClearbitProvider.SearchByCompany | backend/src/infrastructure/providers/ClearbitProvider.ts:100-133 | always []; an open circuit makes no request; otherwise a response counts as a success and an error as a failure |
| Clearbit.ClearbitProvider.SearchByName | backend/src/infrastructure/providers/ClearbitProvider.ts:135-138 | always [] |
| Hunter.FullName | backend/src/infrastructure/providers/HunterProvider.ts:74 | "first last" iff both are truthy |
| Hunter.MapVerification | backend/src/infrastructure/providers/HunterProvider.ts:65-75 | null unless the result is exactly "deliverable"; otherwise the email, with a name only when both names are truthy |
| Hunter.EntryCandidatesShape | backend/src/infrastructure/providers/HunterProvider.ts:115-127 | one candidate per entry with both names, in order, named "first last" with the entry's email and the query as company |
| Hunter.HunterProvider.SearchByEmail | backend/src/infrastructure/providers/HunterProvider.ts:49-89 | open circuit: null, no request; otherwise the mapped verification and a success, or null and one failure for every error (404 included) and for an absent body |
| Hunter.HunterProvider.SearchByCompany | backend/src/infrastructure/providers/HunterProvider.ts:91-141 | open circuit: [], no request; otherwise the candidates of the email list ([] when missing or empty) and a success, or [] and one failure |
| Hunter.HunterProvider.SearchByName | backend/src/infrastructure/providers/HunterProvider.ts:143-146 | always [] |
| InstagramMatching.AddAllMembers | backend/src/infrastructure/providers/InstagramScraper.ts:157-172 | a `Set` built by `add` holds exactly what was added |
| InstagramMatching.AddAllNoDup | backend/src/infrastructure/providers/InstagramScraper.ts:157-172 | adding to a set never duplicates |
| InstagramMatching.KeywordsMeaning | backend/src/infrastructure/providers/InstagramScraper.ts:157-172 | the keywords have no duplicate, are longer than two characters, are exactly the first word, the adjacent pairs and the full join of more than one word, and start with the first word |
| InstagramMatching.GenerateSearchKeywords | backend/src/infrastructure/providers/InstagramScraper.ts:150-173 | the keywords of the cleaned, split and filtered company name, in insertion order |
| InstagramMatching.CollectKeywords | backend/src/infrastructure/providers/InstagramScraper.ts:157-172 | the loop adds the first word, each adjacent pair, then the join, to a set |
| InstagramMatching.CompanyWords | backend/src/infrastructure/providers/InstagramScraper.ts:183-185 | a name without whitespace splits into at most one word, kept when longer than two characters |
| InstagramMatching.CouldBeCompanyUsername | backend/src/infrastructure/providers/InstagramScraper.ts:178-230 | a match iff the cleaned username contains the cleaned company name |
| InstagramMatching.UsernamesMeaning | backend/src/infrastructure/providers/InstagramScraper.ts:245-308 | no duplicates; `clean + "oficial"` always included; the initials included when there are two or more words |
| InstagramMatching.CollectLong | backend/src/infrastructure/providers/InstagramScraper.ts:308 | the names returned are exactly the offered names of two or more characters |
| InstagramMatching.GeneratePossibleUsernames | backend/src/infrastructure/providers/InstagramScraper.ts:232-309 | the variations of the lower-cased, cleaned and split name, de-duplicated in insertion order, shorter than two dropped |
| InstagramMatching.CollectUsernames | backend/src/infrastructure/providers/InstagramScraper.ts:245-308 | the set-building body adds the eight groups of variations in source order |
| InstagramMatching.CouldBePersonUsername | backend/src/infrastructure/providers/InstagramScraper.ts:476-540 | false for a name without tokens; otherwise a match iff the score reaches 6 |
| InstagramMatching.UsernameScore | backend/src/infrastructure/providers/InstagramScraper.ts:481-531 | the accumulated score is the seven direct tests, plus 4 for the first creative pattern found, minus 5 for a generic word |
| InstagramMatching.CreativeBonus | backend/src/infrastructure/providers/InstagramScraper.ts:506-525 | 4 points iff some creative combination occurs, added at most once |
| InstagramMatching.GenericPenalty | backend/src/infrastructure/providers/InstagramScraper.ts:527-531 | a generic word costs exactly 5 points, and its absence nothing |
| InstagramMatching.TwoPartName | backend/src/infrastructure/providers/InstagramScraper.ts:477 | the parts of a two-token name are its lower-cased tokens |
| InstagramMatching.ThreePartName | backend/src/infrastructure/providers/InstagramScraper.ts:477 | the parts of a three-token name are its lower-cased tokens |
| InstagramMatching.ConcatenationScore | backend/src/infrastructure/providers/InstagramScraper.ts:492-525 | first name followed by last name scores at least 19 before the penalty |
| InstagramMatching.FirstLastMatches | backend/src/infrastructure/providers/InstagramScraper.ts:476-533 | for a two-token name without '.', '_', '-', the username first+last, with or without one of those between, scores at least 19 and matches |
| InstagramMatching.PedroBritoExample | backend/test-instagram-scraper.js:34 | "Pedro Lucas Brito" and "brito_rx" score 13, a match |
| Basic.GenerateNameFromEmail | backend/src/infrastructure/providers/BasicProvider.ts:98-105 | every '.', '_' or '-' becomes a space; the first character and each one after a break are upper-cased; the rest is unchanged |
| Basic.JoinCapitalizedSplit | backend/src/infrastructure/providers/BasicProvider.ts:102-104 | split on ' ', capitalising each piece and joining with ' ' upper-cases the first character and every one after a space |
| Basic.PedroLucasName | backend/src/infrastructure/providers/BasicProvider.ts:98-105 | "pedro.lucas" gives "Pedro Lucas" |
| Basic.GetCompanyFromDomain | backend/src/infrastructure/providers/BasicProvider.ts:83-96 | null iff the first label is empty; otherwise that label with its first character upper-cased |
| Basic.GuessDomainFromCompany | backend/src/infrastructure/providers/BasicProvider.ts:107-114 | never null; ends in ".com.br"; the label before it uses only [a-z0-9] and is no longer than the name |
| Basic.GuessedLabelKeepsPlainName | backend/src/infrastructure/providers/BasicProvider.ts:109-111 | a cleaned name with no legal form is kept whole |
| Basic.SinglePassRemoval | backend/src/infrastructure/providers/BasicProvider.ts:111 | removal is one left-to-right pass: "ssaa" becomes "sa" |
| Basic.MesaLosesItsLabel | backend/src/infrastructure/providers/BasicProvider.ts:111 | occurrences inside words are removed too: "mesa" leaves an empty label |
| Basic.SearchByCompany | backend/src/infrastructure/providers/BasicProvider.ts:47-76 | exactly three candidates, for the first three roles in order at the guessed domain |
| Basic.CompanyCandidates | backend/src/infrastructure/providers/BasicProvider.ts:56-70 | the candidates are "Contato - q", "Info - q" and "Vendas - q" at contato@, info@ and vendas@ the domain, company q |
| Basic.SearchByName | backend/src/infrastructure/providers/BasicProvider.ts:78-81 | always [] |
| Basic.SearchByEmail | backend/src/infrastructure/providers/BasicProvider.ts:17-45 | null iff the local part or the domain is empty; otherwise the generated name, the email unchanged, the domain's company, and what the social search returned |
| Basic.ValidEmailLookedUp | backend/src/infrastructure/providers/BasicProvider.ts:22-26 | every valid email is looked up, its company taken from the whole text after the '@' |
| Basic.UsernameMatchesPerson | backend/src/infrastructure/providers/BasicProvider.ts:565-622 | false for a name without tokens; otherwise a match iff the score reaches 7 |
| Basic.PatternBonus | backend/src/infrastructure/providers/BasicProvider.ts:595-612 | 8 points iff some combination longer than two characters occurs in the lower-cased username, at most once |
| Basic.MatchMeaning | backend/src/infrastructure/providers/BasicProvider.ts:578-615 | a match iff the cleaned username contains the first name and the last name's initial, or a combination occurs |
| Basic.ScoreNeverSeven | backend/src/infrastructure/providers/BasicProvider.ts:614-615 | no score is exactly 7, so `>= 7` and `> 7` agree |
| Basic.FullNameMatches | backend/src/infrastructure/providers/BasicProvider.ts:579-580 | distinct first and last names both in the cleaned username give at least 10 and a match |
| Basic.FirstNameAloneFails | backend/src/infrastructure/providers/BasicProvider.ts:583-612 | the first name alone, with no last name, no initial and no combination, scores 5 or 0 and does not match |
| Basic.SlugIgnoresSeparator | backend/src/infrastructure/providers/BasicProvider.ts:624-630 | a '-' or '_' anywhere in the slug does not change the answer |
| Basic.ShortTokensNeverMatch | backend/src/infrastructure/providers/BasicProvider.ts:624-630 | a name whose tokens all have at most two characters matches no slug |
| Mock.FindByEmailIsFirst | backend/src/infrastructure/providers/MockProvider.ts:42-44 | the lookup finds the first record whose email equals the query ignoring case, and nothing only when none does |
| Mock.ByCompanyMembers | backend/src/infrastructure/providers/MockProvider.ts:68-70 | the company filter keeps exactly the records whose company contains the query ignoring case |
| Mock.ByNameMembers | backend/src/infrastructure/providers/MockProvider.ts:100-102 | the name filter keeps exactly the records whose name contains the query ignoring case |
| Mock.UpperWordStarts | backend/src/infrastructure/providers/MockProvider.ts:51-56 | `\b\w` upper-cases each word character that starts a run of [A-Za-z0-9_] |
| Mock.AccentSplitsWord | backend/src/infrastructure/providers/MockProvider.ts:51 | "joão" becomes "JoãO" |
| Mock.MockName | backend/src/infrastructure/providers/MockProvider.ts:51 | '.' and '_' become spaces, the length is kept |
| Mock.MockCompany | backend/src/infrastructure/providers/MockProvider.ts:56 | the first domain label with word starts upper-cased, or "Unknown Company" when it is empty |
| Mock.MockInstagram | backend/src/infrastructure/providers/MockProvider.ts:57 | the lower-cased name with whitespace turned into '_', followed by "_insta" |
| Mock.RandomNineDigits | backend/src/infrastructure/providers/MockProvider.ts:58 | a number from 100000000 to 999999999 |
| Mock.MockWhatsapp | backend/src/infrastructure/providers/MockProvider.ts:58 | "+5511" followed by nine digits |
| Mock.MockWhatsappIsPhone | backend/src/infrastructure/providers/MockProvider.ts:58 | every generated number passes `Person.validatePhone` |
| Mock.StandIn | backend/src/infrastructure/providers/MockProvider.ts:46-60 | null iff the local part or the domain is empty; otherwise the generated name, email, company, instagram and whatsapp |
| Mock.SearchByEmail | backend/src/infrastructure/providers/MockProvider.ts:38-63 | the stored record when its email matches ignoring case, the stand-in otherwise |
| Mock.SearchByCompany | backend/src/infrastructure/providers/MockProvider.ts:65-95 | the matching stored records in order; when there are none, exactly "João q" and "Maria q" with company q |
| Mock.SearchByName | backend/src/infrastructure/providers/MockProvider.ts:97-105 | the stored records whose name contains the query ignoring case, in order, possibly none |
| Metrics.IncrementedReads | backend/dist/shared/logger.js:70-73 | an increment adds the value to its own counter (absent reads as 0) and to no other |
| Metrics.IncrementAllReads | backend/dist/shared/logger.js:70-73 | after a run of increments every counter has grown by the number of times it was named |
| Metrics.MetricsCollector.constructor | backend/dist/shared/logger.js:68-69 | both tables start empty |
| Metrics.MetricsCollector.IncrementCounter | backend/dist/shared/logger.js:70-73 | the counter becomes its old value (or 0) plus the value; the gauges are untouched |
| Metrics.MetricsCollector.SetGauge | backend/dist/shared/logger.js:74-76 | one gauge is overwritten; the counters are untouched |
| Metrics.MetricsCollector.GetMetrics | backend/dist/shared/logger.js:77-83 | the two tables as they stand |
| Metrics.MetricsCollector.Reset | backend/dist/shared/logger.js:84-87 | both tables become empty |
| Controller.Blocks | backend/dist/presentation/controllers/SearchController.js:106-114 | one block per metric, in order, each carrying that metric's value |
| Controller.FormatPrometheusMetrics | backend/dist/presentation/controllers/SearchController.js:103-116 | the text is every counter's block in insertion order, then every gauge's |
| Controller.AppendSection | backend/dist/presentation/controllers/SearchController.js:106-109 | the loop appends "# TYPE n kind\n" and "n v\n" for each metric in order |
| Controller.PrometheusEmpty | backend/dist/presentation/controllers/SearchController.js:103-116 | the text is empty iff there are no counters and no gauges |
| Controller.CountersFirst | backend/dist/presentation/controllers/SearchController.js:105-114 | the counters' text is a prefix and the gauges' text a suffix |
| Controller.CounterRendered | backend/dist/presentation/controllers/SearchController.js:106-109 | every counter appears with its type line and current value |
| Controller.GaugeRendered | backend/dist/presentation/controllers/SearchController.js:111-114 | every gauge appears with its type line and current value |
| Controller.SearchPerson | backend/dist/presentation/controllers/SearchController.js:13-69 | the counters move by the request's classification and the gauges not at all; the use case runs iff query and type are both truthy; 400 with the required-fields error, 500 with the internal error when it throws, or its answer |
| Controller.SearchPersonDelta | backend/dist/presentation/controllers/SearchController.js:16-58 | each counter grows by the request's delta for it |
| Controller.ClassificationCases | backend/dist/presentation/controllers/SearchController.js:16-58 | the counters moved are [total, invalid], [total, error], [total, successful, hit or miss] or [total, failed] |
| Controller.TotalCountedOnce | backend/dist/presentation/controllers/SearchController.js:16 | every request counts once in search_requests_total |
| Controller.RejectedCounted | backend/dist/presentation/controllers/SearchController.js:19-26 | a request without both fields counts as invalid and in no outcome counter |
| Controller.SuccessCounted | backend/dist/presentation/controllers/SearchController.js:37-45 | a success counts once as successful and in exactly one cache counter, hits iff `cached` is true |
| Controller.FailureCounted | backend/dist/presentation/controllers/SearchController.js:46-48 | a failure counts once as failed and in neither cache counter |
| Controller.ErrorCounted | backend/dist/presentation/controllers/SearchController.js:57-58 | a thrown use case counts once as an error and in no result counter |
| RateLimit.Step | backend/dist/app.js:30-49 | the requesting client is in the table afterwards and every other client's entry is unchanged |
| RateLimit.StepCases | backend/dist/app.js:33-47 | a new client or a closed window opens (1, now + 60000) and passes; inside a window the request passes iff fewer than 100 went before, adding one, and a rejection leaves the table as it was |
| RateLimit.StepWithinBounds | backend/dist/app.js:33-41 | every stored count stays between 1 and 100 |
| RateLimit.WindowAllowance | backend/dist/app.js:38-47 | inside one window, requests pass until the window holds 100 and are refused from then on; the closing instant does not move |
| RateLimit.AtMostMaxPerWindow | backend/dist/app.js:27-49 | an opening request plus any requests up to `resetTime` itself let through exactly min(n + 1, 100) |
| RateLimit.RunDependsOnOwnWindow | backend/dist/app.js:33 | what a client's requests get depends only on that client's own window |
| RateLimit.RunLeavesOthers | backend/dist/app.js:33-41 | a client's requests leave every other client's window as it was |
| RateLimit.RateLimiter.constructor | backend/dist/app.js:27 | the table starts empty |
| RateLimit.RateLimiter.Handle | backend/dist/app.js:30-49 | the table and the verdict are those of one step; a rejection is 429 with the retry message and one rate_limit_exceeded increment; a pass changes no counter |
| JsText.TrimEmpty | backend/src/domain/services/PersonSearchService.ts:53 | `trim()` is empty iff every character is whitespace |
| JsText.JoinSplit | backend/src/infrastructure/providers/BasicProvider.ts:102-104 | joining the pieces of `split(c)` with `c` gives back the string |

## Left out

- HTTP traffic (axios, the Clearbit and Hunter endpoints, and the scraping and search-engine strategies of BasicProvider and InstagramScraper) is not modelled. Each exchange is an oracle `respond(k)`. `searchBasicSocial` is a function parameter.
- Timing and concurrency are not modelled. This covers the `setTimeout` sleeps of the retry and delay helpers, where only the computed delay values are kept, and the concurrent fan-out of `Promise.allSettled`, which is a sequence of settled outcomes in provider order.
- `Date.now()` and `Math.random()` are parameters: the clock readings, the person and company ids, and the random whatsapp digits.
- Logging, `logPerformance`, `logError` and console output are left out, because they have no effect on results.
- `healthCheck`, the `getMetrics` route, the `http_requests_total`/`active_connections` middleware (app.js 51-55), helmet, cors and the server lifecycle are not part of this model.
- Dependency wiring (container.ts) is not modelled. The provider order is whatever sequence the aggregation is given.
- Controller.SearchPerson: the use case is the oracle `execute`, which returns a response or throws, and is not `SearchUseCase.Execute`. The controller's counters therefore hold for every possible use-case behaviour.
- Controller.SearchPerson: `req.body.query` and `req.body.type` are optional strings. JSON values of other types (numbers, objects) are not modelled.
- Metrics.MetricsCollector.GetMetrics: the timestamp is left out. The snapshot keeps the `Map` iteration order, whereas `Object.fromEntries` followed by `Object.entries` moves integer-like keys to the front; all metric names in the core are non-numeric.
- Controller.FormatPrometheusMetrics: values are integers rendered in decimal. Floating-point gauge values are not modelled.
- JsText.ToLower: `toLowerCase`/`toUpperCase` are modelled for ASCII and Latin-1 letters only; other Unicode case mappings are not. Within Latin-1, 'µ' becomes U+039C and 'ÿ' becomes U+0178, as in JavaScript, but 'ß' is kept where JavaScript gives "SS": the model's upper-casing maps one character to one character.
- Basic.GenerateNameFromEmail: a piece starting with 'ß' keeps it ("ßandra" gives "ßandra" where the code gives "SSandra"), for the reason above.
- Basic.GetCompanyFromDomain: a first label starting with 'ß' keeps it, for the same reason.
- InstagramMatching.StripSuffixWords: `\b` and `\w` are the ASCII classes. So an accented suffix word such as "soluções" is bounded as the JavaScript engine bounds it without the `u` flag. Unicode word boundaries are not modelled.
- The InstagramScraper strategies `findCompanyInstagram`, `findPersonInFollowers`, the `searchVia*` methods, `checkInstagramExists` and the null placeholder `extractFollowersFromData` are network code or placeholders, and are not modelled.
- Person and Company ids built from `Date.now()` and `Math.random()` are parameters. Their format is not modelled.
- Resilience.RequestWithRetry: an error with no `config` object is not modelled, because the interceptor would itself throw on it; every attempt carries its config.
