# SFDC account matching — a Dafny model of the matching core

This project models the core of a service that matches Salesforce customer
accounts to "shell" accounts enriched with ZoomInfo data (the `ZI_*`
fields). It proves properties of that model. The core has three services:

* **Fuzzy matching** (`fuzzy_matching_service.py`) is a two-stage retrieval.
  * Stage one is a fast filter. Shells are put in hash buckets keyed by the
    company token of their website and by the long tokens of their
    normalised company name. The customer's own keys select candidate Ids
    from the buckets.
  * Stage two re-ranks the candidates by an overall similarity and takes the
    best one. The overall similarity is a precedence-weighted sum: the
    website leads, then the name, then the address. The website and name
    scores use difflib's `SequenceMatcher.ratio`; the address gives 30, 30,
    30 and 10 points.
* **Salesforce** (`salesforce_service.py`) covers the Ids and the validation.
  * 15-character Ids convert to 18-character Ids through a case checksum, and
    back.
  * Two Ids are equivalent when their 15-character forms agree.
  * An Id is checked for format, and validation splits an Id list into
    valid and invalid Ids against the set of Ids the query finds.
  * Customer accounts are separated into clean and bad-domain accounts.
* **Excel** (`excel_service.py`) reads the upload and builds the results.
  * Parsing an upload gives the headers of every sheet, a 10-row preview of
    the first sheet and a row count.
  * An account-Id column is cleaned.
  * The results workbook gets one entry per customer: matched, unmatched,
    flagged or invalid. The entries are sorted by name with a stable sort,
    and each is written as a 19-cell row.

The modules follow the program's structure:

| file | module | what it holds |
|---|---|---|
| `ascii.dfy` | `Ascii` | ASCII `str.lower`, `strip`, `split`, `join`, `str(int)` |
| `options.dfy` | `Options` | `None` or a value |
| `accounts.dfy` | `Accounts` | the customer and shell records |
| `sorting.dfy` | `Sorting` | Python's stable `list.sort`, as insertion sort |
| `sequence_match.dfy` | `SequenceMatch` | difflib's longest match, matching-block count and ratio |
| `normalize.dfy` | `Normalize` | domain extraction, company tokens, name normalisation |
| `scoring.dfy` | `Scoring` | website, name and address scores, overall similarity |
| `candidate_index.dfy` | `CandidateIndex` | hash buckets and the fast filter |
| `ranking.dfy` | `Ranking` | re-ranking and the best match |
| `salesforce_ids.dfy` | `SalesforceIds` | Id conversion, equivalence and format |
| `account_validation.dfy` | `AccountValidation` | Id validation and the bad-domain split |
| `excel_import.dfy` | `ExcelImport` | parsing an upload and cleaning an Id column |
| `results_export.dfy` | `ResultsExport` | the results entries, their order and their rows |

Pure source code is written as functions. Code that works with loops is
written as methods. Each method is proved equal to a specification
function, and the properties are proved about those functions as lemmas.

## Behaviour worth knowing

* **Normalisation is not idempotent:** `Normalize.NormalizedNotIdempotent`. The suffix pass tries
  each legal word once, in list order, so "foo inc co" becomes "foo inc" and
  then "foo".
* **The fuzzy ratio is not symmetric:** `SequenceMatch.RatioAsymmetric`. difflib breaks ties
  between longest matches by position in the first string, so
  `ratio("ab", "bacb")` is 2/3 while `ratio("bacb", "ab")` is 1/3.
* **The postal `else` belongs to the presence test.**
  * In `compute_address_consistency_score` (fuzzy_matching_service.py:211-216)
    the `else` pairs with "both postal codes present", not with "equal".
  * Two present but different postal codes are reported nowhere.
  * A postal code missing on either side is reported as a mismatch, even
    when both are empty (`Scoring.EmptyAddresses`).
* **A later original wins in `id_mapping`.**
  * When two originals share a query Id, the later one overwrites the
    earlier (salesforce_service.py:223).
  * Both then report the later original: `AccountValidation.LaterOriginalWins`.
* **Only the first sheet gives preview rows.** `parse_excel_file` compares each
  sheet's name with the first sheet's name (excel_service.py:63). The sheet
  names of a workbook are distinct, so only the first sheet passes the test
  (`ExcelImport.OnlyFirstNamed`).

## Model

| member | source | states |
|---|---|---|
| Sorting.Sort | services/fuzzy_matching_service.py:393 | the sorted list has the same length and the same elements, as a multiset, as the input |
| Sorting.SortSorted | services/fuzzy_matching_service.py:393 | for any strict order on keys, no element of the result has a key that goes strictly before an earlier element's key |
| Sorting.SortStable | services/excel_service.py:341 | stability: for every key, the elements with that key appear in the result in their input order |
| Sorting.SortHead | services/fuzzy_matching_service.py:393 | the head of a non-empty sorted list is the first input element whose key nothing beats |
| Sorting.SortCount | services/excel_service.py:341 | sorting keeps the number of elements satisfying any predicate |
| Ascii.Lower | services/fuzzy_matching_service.py:60 | same length, and each character is lower-cased on its own: an upper-case ASCII letter becomes lower case, any other character is kept |
| Ascii.LowerKeeps | services/fuzzy_matching_service.py:60 | a string without upper-case letters is its own lower-casing |
| Ascii.Strip | services/salesforce_service.py:207 | the result has no whitespace at either end; with StripSpec, it is the slice of the input left once the whitespace on both sides is removed |
| Ascii.TrimLeftSpace | services/salesforce_service.py:207 | the characters removed at the front are all whitespace |
| Ascii.TrimRightSpace | services/salesforce_service.py:207 | the characters removed at the back are all whitespace |
| Ascii.StripSpec | services/salesforce_service.py:207 | `strip()` keeps one contiguous slice of the input and removes only whitespace before and after it |
| Ascii.StripKeeps | services/salesforce_service.py:207 | stripping a string without whitespace at its ends changes nothing |
| Ascii.Words | services/fuzzy_matching_service.py:77 | `str.split()`: the words are non-empty and hold no whitespace; WordsJoin and WordsConcat tie them to the input |
| Ascii.WordsJoin | services/fuzzy_matching_service.py:77 | `split()` undoes `" ".join()` of non-empty words without whitespace |
| Ascii.WordsConcat | services/fuzzy_matching_service.py:77 | `split()` loses no character but whitespace: the words put back together are exactly the non-whitespace characters of the input |
| Ascii.WordsOfTokenText | services/fuzzy_matching_service.py:259 | a text of whitespace, lower-case letters and digits splits into words of lower-case letters and digits |
| Ascii.JoinTokensSingleSpaced | services/fuzzy_matching_service.py:77 | joining non-empty words of lower-case letters and digits with one space gives text with no leading, trailing or doubled space |
| Ascii.NatToString | services/salesforce_service.py:40 | `str(n)` of a natural number is a non-empty string of decimal digits; NatToStringValue shows they denote n |
| Ascii.NatToStringValue | services/salesforce_service.py:40 | `str(n)` reads back as n and has no leading zero |
| SequenceMatch.CommonPrefix | services/fuzzy_matching_service.py:94 | the length of the longest common prefix: the characters agree up to it and differ at it |
| SequenceMatch.ScanRowSpec | services/fuzzy_matching_service.py:94 | scanning one row of start positions keeps the longest-match invariant: an exact block, no longer common run before the scan point, first of its size |
| SequenceMatch.ScanFromSpec | services/fuzzy_matching_service.py:94 | scanning the remaining rows keeps the invariant through to the end of the first string |
| SequenceMatch.LongestMatchSpec | services/fuzzy_matching_service.py:94 | find_longest_match returns an exact common block that no common run is longer than, and no earlier start position has one as long |
| SequenceMatch.MatchCount | services/fuzzy_matching_service.py:94 | the matched characters are at most the length of either string |
| SequenceMatch.Ratio | services/fuzzy_matching_service.py:94 | the ratio lies between 0 and 1 |
| SequenceMatch.MatchCountSelf | services/fuzzy_matching_service.py:94 | a string matches itself completely |
| SequenceMatch.RatioSelf | services/fuzzy_matching_service.py:94 | every string has ratio 1 with itself |
| SequenceMatch.RatioDisjoint | services/fuzzy_matching_service.py:94 | strings with no common character have no matched characters and ratio 0 |
| SequenceMatch.RatioSwap | services/fuzzy_matching_service.py:94 | swapping the arguments keeps the ratio exactly when it keeps the match count |
| SequenceMatch.RatioAsymmetric | services/fuzzy_matching_service.py:94 | "ab" against "bacb" matches 2 characters and the reverse matches 1, so the two ratios differ |
| Normalize.SuffixPatterns | services/fuzzy_matching_service.py:69 | four patterns per legal word, each a separator (space, dot, comma, hyphen) followed by the word |
| Normalize.StripFirstPrefixAt | services/fuzzy_matching_service.py:29-32 | only the first prefix in list order that matches is removed |
| Normalize.StripFirstPrefixNone | services/fuzzy_matching_service.py:29-32 | when no prefix matches, the domain is unchanged |
| Normalize.StripFirstSuffixAt | services/fuzzy_matching_service.py:44-47 | only the first TLD in list order that matches is removed |
| Normalize.StripFirstSuffixNone | services/fuzzy_matching_service.py:44-47 | when no TLD matches, the domain is unchanged |
| Normalize.Netloc | services/fuzzy_matching_service.py:25-26 | the network location is the longest prefix of what follows the scheme, once tabs, carriage returns and line feeds are deleted, without '/', '?' or '#' |
| Normalize.WithScheme | services/fuzzy_matching_service.py:22-23 | after the protocol step the URL starts with "http://" or "https://" |
| Normalize.DomainOf | services/fuzzy_matching_service.py:15-36 | no domain exactly for an empty URL; a domain has no upper-case letter and no '/', '?' or '#'; tabs, carriage returns and line feeds never reach it (HostDropsUnsafe) |
| Normalize.AlnumOnly | services/fuzzy_matching_service.py:50 | the result keeps only ASCII letters and digits and is no longer than the input; the three lemmas below show it keeps every one, in order |
| Normalize.AlnumOnlyAppend | services/fuzzy_matching_service.py:50 | the filter of a concatenation is the concatenation of the filters |
| Normalize.AlnumOnlyAlnum | services/fuzzy_matching_service.py:50 | a string of letters and digits is kept whole |
| Normalize.AlnumOnlyDrops | services/fuzzy_matching_service.py:50 | a string without letters or digits is removed entirely |
| Normalize.TokenOf | services/fuzzy_matching_service.py:38-51 | a company token is non-empty lower-case letters and digits, and an empty domain has none |
| Normalize.WebsiteToken | services/fuzzy_matching_service.py:243-248 | a website's bucket key, when it has one, is a non-empty token |
| Normalize.StripLegal | services/fuzzy_matching_service.py:67-74 | the suffix pass only shortens the name from the end |
| Normalize.StripLegalAppend | services/fuzzy_matching_service.py:67-74 | the suffix pass over a word list is the pass over its first part followed by the pass over the rest |
| Normalize.StripLegalTokens | services/fuzzy_matching_service.py:67-74 | a string of letters and digits loses no suffix, since every pattern starts with a separator |
| Normalize.Denoise | services/fuzzy_matching_service.py:76 | every character other than an ASCII letter, digit or whitespace becomes a space; the length is kept |
| Normalize.Normalized | services/fuzzy_matching_service.py:53-79 | an empty name normalises to ""; every result is single-spaced |
| Normalize.NormalizedToken | services/fuzzy_matching_service.py:53-79 | a non-empty token normalises to itself |
| Normalize.NormalizedTwoSuffixes | services/fuzzy_matching_service.py:62-79 | "Acme Corp Inc" becomes "acme": "inc" is tried before "corp" |
| Normalize.NormalizedNotIdempotent | services/fuzzy_matching_service.py:53-79 | normalising "foo inc co" twice differs from normalising it once |
| Normalize.WebsiteTokenExamples | services/fuzzy_matching_service.py:15-51 | "https://www.acme.com" and "https://acme.io" both give the token "acme" |
| Normalize.StripFirstMatchingPrefix | services/fuzzy_matching_service.py:29-32 | the prefix loop with `break` computes StripFirstPrefix |
| Normalize.StripFirstMatchingSuffix | services/fuzzy_matching_service.py:44-47 | the TLD loop with `break` computes StripFirstSuffix |
| Normalize.RemoveUnsafe | services/fuzzy_matching_service.py:25 | urlsplit's first step: the result has no tab, carriage return or line feed, and a string without them is unchanged |
| Normalize.RemoveUnsafeAppend | services/fuzzy_matching_service.py:25 | the deletion works piece by piece |
| Normalize.HostOfHttps | services/fuzzy_matching_service.py:21-26 | the host of an "https://" URL is the network location of the rest once tabs, carriage returns and line feeds are deleted |
| Normalize.HostDropsUnsafe | services/fuzzy_matching_service.py:21-26 | tabs, carriage returns and line feeds after a host name do not reach the host |
| Normalize.HostIgnoresNewline | services/fuzzy_matching_service.py:21-26 | the host of "https://acme.io" followed by a line feed is "acme.io" |
| Normalize.ExtractDomain | services/fuzzy_matching_service.py:15-36 | extract_domain_from_url computes DomainOf |
| Normalize.CompanyToken | services/fuzzy_matching_service.py:38-51 | extract_company_name_from_domain computes TokenOf |
| Normalize.NormalizeCompanyName | services/fuzzy_matching_service.py:53-79 | the suffix loop, de-noising and whitespace collapsing compute Normalized |
| Scoring.FuzzySimilarity | services/fuzzy_matching_service.py:81-95 | between 0 and 1; 0 when either name or its normalisation is empty; otherwise the ratio of the two normalised names |
| Scoring.FuzzySimilaritySelf | services/fuzzy_matching_service.py:81-95 | a name that normalises to something is fully similar to itself |
| Scoring.FuzzySimilarityTokens | services/fuzzy_matching_service.py:81-95 | comparing two company tokens is their plain ratio, since tokens normalise to themselves |
| Scoring.WebsiteMatch | services/fuzzy_matching_service.py:99-136 | the score lies in 0..100; every text outcome scores 0; without a token on either side the outcome is a text; with two tokens the score is 100 times their ratio |
| Scoring.NameMatch | services/fuzzy_matching_service.py:138-159 | the score lies in 0..100; an empty name gives a text outcome scoring 0; otherwise the score is 100 times the fuzzy similarity, explained by the two normalised names |
| Scoring.ExplanationOf | services/fuzzy_matching_service.py:218-225 | the address explanation is never empty |
| Scoring.AddressScoreRange | services/fuzzy_matching_service.py:161-216 | the address score is a multiple of 10, at most 100, and 100 exactly when all four fields are present and equal |
| Scoring.AgreeExcludesDisagree | services/fuzzy_matching_service.py:174-216 | no field is both a match and a mismatch; present country, state and city are one or the other; present, different postal codes are neither |
| Scoring.EmptyAddresses | services/fuzzy_matching_service.py:207-225 | two empty addresses score 0 and report only the postal mismatch |
| Scoring.CompareField | services/fuzzy_matching_service.py:174-205 | one country, state or city step adds the field's points and items to the running score and lists |
| Scoring.ComparePostal | services/fuzzy_matching_service.py:207-216 | the postal step adds its points and items, with the `else` on the presence test |
| Scoring.CompareAddresses | services/fuzzy_matching_service.py:170-227 | the four steps in order give the address score and the explanation |
| Scoring.AddressConsistency | services/fuzzy_matching_service.py:161-227 | compute_address_consistency_score on the trimmed, lower-cased fields |
| Scoring.OverallSimilarity | services/fuzzy_matching_service.py:322-373 | the three signals as computed on their own; overall is the precedence-weighted sum and lies in 0..90.1 |
| Scoring.WeightedByBranch | services/fuzzy_matching_service.py:342-361 | website-led: 0.6·website + 0.3·name + address/1000; name-led: 0.6·name + address/1000; address-led: 0.7·address/100; never above 90.1 |
| Scoring.OverallByBranch | services/fuzzy_matching_service.py:342-367 | the cap at 100 never applies: overall equals the weighted sum of its branch |
| Scoring.NamesDoNotChangeBranch | services/fuzzy_matching_service.py:345-348 | with both websites present, the website leads whatever the names are |
| Scoring.UnusableWebsitesStillLead | services/fuzzy_matching_service.py:345-347 | raw presence decides the branch: a website with no token still leads, and the score is 0.3·name + address/1000 |
| CandidateIndex.Lookup | services/fuzzy_matching_service.py:287 | looking up a missing key gives the empty list |
| CandidateIndex.LookupFinds | services/fuzzy_matching_service.py:287 | with distinct keys, a bucket's key finds that bucket's list |
| CandidateIndex.AppendLookup | services/fuzzy_matching_service.py:249-251 | appending x under k extends k's list by x and leaves every other list unchanged |
| CandidateIndex.AppendKeys | services/fuzzy_matching_service.py:249-251 | a new key goes last and existing keys keep their order |
| CandidateIndex.AppendDistinct | services/fuzzy_matching_service.py:249-251 | appending keeps the keys distinct |
| CandidateIndex.IndexStep | services/fuzzy_matching_service.py:239-264 | indexing one more shell appends it under each of its keys |
| CandidateIndex.LookupIndex | services/fuzzy_matching_service.py:239-264 | a bucket holds the shells with that key, in input order, once per occurrence of the key |
| CandidateIndex.IndexDistinct | services/fuzzy_matching_service.py:239-264 | the built table has distinct keys |
| CandidateIndex.IndexSound | services/fuzzy_matching_service.py:239-264 | every shell in a bucket is an input shell that has the bucket's key |
| CandidateIndex.WebsiteKeys | services/fuzzy_matching_service.py:243-251 | a shell has at most one website key |
| CandidateIndex.LongTokensMembers | services/fuzzy_matching_service.py:260-261 | the name keys are exactly the tokens longer than two characters |
| CandidateIndex.WebsiteBucketsSound | services/fuzzy_matching_service.py:243-251 | every shell in a website bucket is an input shell whose website token is the bucket's key |
| CandidateIndex.WebsiteBucketsDisjoint | services/fuzzy_matching_service.py:243-251 | each shell is in at most one website bucket |
| CandidateIndex.NameBuckets | services/fuzzy_matching_service.py:253-264 | every shell in a name bucket is an input shell, and the key is a token of its normalised name longer than two characters |
| CandidateIndex.AddToWebsiteBuckets | services/fuzzy_matching_service.py:242-251 | the website half of one loop step appends the shell under its website key |
| CandidateIndex.AddUnderLongTokens | services/fuzzy_matching_service.py:260-264 | the token loop appends the shell under each long token |
| CandidateIndex.AddToNameBuckets | services/fuzzy_matching_service.py:253-264 | the name half of one loop step appends the shell under its name keys |
| CandidateIndex.CreateHashBuckets | services/fuzzy_matching_service.py:231-269 | create_hash_buckets builds the website index and the name index |
| CandidateIndex.FlattenMembers | services/fuzzy_matching_service.py:307-311 | a shell is in the concatenated buckets exactly when it is in one of them |
| CandidateIndex.FirstOfEachIdSpec | services/fuzzy_matching_service.py:313-318 | deduplication gives distinct Ids, draws from the input, and covers exactly the candidate Ids present in it |
| CandidateIndex.CandidateIdsInTables | services/fuzzy_matching_service.py:276-299 | every candidate Id occurs in the bucket tables |
| CandidateIndex.FilteredSpec | services/fuzzy_matching_service.py:271-320 | the candidates have pairwise-distinct Ids, and their Id set is exactly the candidate-Id set |
| CandidateIndex.FilteredThreshold | services/fuzzy_matching_service.py:292 | with ten or more website hits, the name buckets are not consulted |
| CandidateIndex.FilteredFromShells | services/fuzzy_matching_service.py:271-320 | built from the index of the shells, every candidate is one of the shells |
| CandidateIndex.AddIds | services/fuzzy_matching_service.py:287-288 | adds the Ids of a bucket's shells to the candidate set |
| CandidateIndex.CollectWebsiteHits | services/fuzzy_matching_service.py:280-288 | step 1 collects the Ids in the customer's website bucket |
| CandidateIndex.CollectLongTokenHits | services/fuzzy_matching_service.py:296-299 | the token loop adds the Ids of each long token's bucket |
| CandidateIndex.CollectNameHits | services/fuzzy_matching_service.py:292-299 | step 2 adds the Ids of the buckets of the customer's name tokens |
| CandidateIndex.ExtendAll | services/fuzzy_matching_service.py:307-311 | the bucket lists are concatenated in key order |
| CandidateIndex.KeepFirstOfEachId | services/fuzzy_matching_service.py:313-318 | the dedup loop keeps the first shell of each candidate Id |
| CandidateIndex.FastFilterCandidates | services/fuzzy_matching_service.py:271-320 | fast_filter_candidates computes Filtered |
| Ranking.Scored | services/fuzzy_matching_service.py:380-390 | one scored entry per candidate, in input order, carrying its similarity |
| Ranking.RankBy | services/fuzzy_matching_service.py:375-395 | the scoring loop, then a descending stable sort by overall score |
| Ranking.RankShellCandidates | services/fuzzy_matching_service.py:375-395 | rank_shell_candidates ranks by the overall similarity to the customer |
| Ranking.RankingSpec | services/fuzzy_matching_service.py:392-393 | the ranking is a permutation, ordered from the highest score down, with ties in input order |
| Ranking.RankingHead | services/fuzzy_matching_service.py:393 | the head of the ranking is the first candidate, in input order, with the highest score |
| Ranking.BestOfRanking | services/fuzzy_matching_service.py:428 | the head of the ranking is a candidate with its own scores, and no candidate scores higher |
| Ranking.CandidatesSpec | services/fuzzy_matching_service.py:410-415 | with shells present there are candidates; all of them are shells, and there are never more than the shells |
| Ranking.FindBestShellMatch | services/fuzzy_matching_service.py:397-444 | failure exactly when there are no shells; otherwise the head of the ranking, which is a best candidate, with the candidate and shell counts |
| SalesforceIds.Convert15To18 | services/salesforce_service.py:22-42 | the nested chunk loops compute To18 |
| SalesforceIds.ChunkValue | services/salesforce_service.py:30-34 | a chunk's value is below 2 to the power of its length |
| SalesforceIds.ChunkValueCase | services/salesforce_service.py:30-34 | two chunks of one length have the same value exactly when they have the same case pattern |
| SalesforceIds.SuffixTextRange | services/salesforce_service.py:36-40 | a chunk value below 32 gives one checksum character, 'A'..'Z' or '0'..'5' |
| SalesforceIds.SuffixTextInjective | services/salesforce_service.py:36-40 | different chunk values give different checksum characters |
| SalesforceIds.To18Shape | services/salesforce_service.py:22-42 | a 15-character Id becomes an 18-character Id that starts with it, followed by three letters or digits 0 to 5 |
| SalesforceIds.ChecksumCase | services/salesforce_service.py:22-42 | two 15-character Ids get the same checksum exactly when their three chunks have the same case patterns |
| SalesforceIds.To15 | services/salesforce_service.py:44-51 | an 18-character Id loses its last three characters; any other Id is unchanged |
| SalesforceIds.RoundTrip | services/salesforce_service.py:22-51 | converting a 15-character Id to 18 characters and back gives the Id back |
| SalesforceIds.SameAccountIdSymmetric | services/salesforce_service.py:53-62 | Id equivalence is symmetric and never holds for an empty Id |
| SalesforceIds.SameStrippedIds | services/salesforce_service.py:53-62 | for non-empty stripped Ids, equivalence is equality of the 15-character forms |
| SalesforceIds.SameAs18 | services/salesforce_service.py:22-62 | a stripped 15-character Id and its 18-character form are the same account |
| SalesforceIds.To18Stripped | services/salesforce_service.py:22-42 | the 18-character form of a stripped Id is stripped |
| SalesforceIds.ValidStripped | services/salesforce_service.py:64-89 | a stripped Id is valid exactly when it is 15 or 18 alphanumeric characters starting "001" |
| SalesforceIds.ValidTo18 | services/salesforce_service.py:22-89 | the 18-character form of a valid 15-character Id is valid |
| AccountValidation.QueryIds | services/salesforce_service.py:216-222 | one query Id per format-valid Id: the 18-character form of a 15-character Id, any other Id as it is |
| AccountValidation.SplitByFormat | services/salesforce_service.py:203-211 | the first loop strips each Id and puts it on the side of the format check |
| AccountValidation.BuildQueryIds | services/salesforce_service.py:213-223 | the second loop builds the query Ids and id_mapping |
| AccountValidation.ValidateAccountIds | services/salesforce_service.py:187-260 | validation, given the Ids the query finds, gives Validated and its message; the shell validator at lines 262-354 differs only in its messages |
| AccountValidation.Summarize | services/salesforce_service.py:252-255 | the closing message names the invalid count, or says every Id is valid |
| AccountValidation.FormatPartition | services/salesforce_service.py:206-211 | every Id, stripped, lands on exactly one side: all format-valid on one side, none on the other |
| AccountValidation.MappingSpec | services/salesforce_service.py:216-223 | id_mapping has exactly the query Ids as keys, and each maps to the last original with that query Id |
| AccountValidation.MappedBack | services/salesforce_service.py:223 | the original a query Id maps to is a format-valid Id with that query Id |
| AccountValidation.DistinctQueriesKeepOriginals | services/salesforce_service.py:216-223 | without shared query Ids, every original maps back to itself |
| AccountValidation.SelectComplete | services/salesforce_service.py:238-239 | every query Id found (or not found) has its original in the valid (or Salesforce-invalid) list |
| AccountValidation.ValidatedComplete | services/salesforce_service.py:206-242 | no format-valid Id is dropped: the original of its query Id is reported valid when found and Salesforce-invalid when not |
| AccountValidation.EveryOriginalReported | services/salesforce_service.py:206-242 | without shared query Ids, each format-valid Id itself is reported valid when found and Salesforce-invalid when not |
| AccountValidation.SelectSpec | services/salesforce_service.py:237-239 | found and not-found selections together have one entry per query Id, each the original of a query Id on its side |
| AccountValidation.ValidatedSpec | services/salesforce_service.py:229-250 | the counts add up to the requested total; format failures come first among the invalid Ids; the valid Ids are format-valid and found; the rest are format-valid and not found |
| AccountValidation.AllValidMessage | services/salesforce_service.py:252-255 | with no invalid Id, the message is "All n account IDs are valid" |
| AccountValidation.LaterOriginalWins | services/salesforce_service.py:216-239 | a 15-character Id followed by its 18-character form reports the 18-character form twice |
| AccountValidation.WithFlags | services/salesforce_service.py:381-386 | each account gets the flag the bad-domain check gives it, in input order |
| AccountValidation.FilterByBadDomains | services/salesforce_service.py:368-394 | the clean and flagged lists are the flagged accounts with a clean or bad verdict, in input order |
| AccountValidation.VerdictPartition | services/salesforce_service.py:388-392 | the two lists together are a permutation of the flagged accounts, each on the side of its verdict |
| AccountValidation.FilterSpec | services/salesforce_service.py:368-394 | every account lands on exactly one side, with the verdict the check gives it |
| ExcelImport.CleanAccountIds | services/excel_service.py:112-126 | the cleaning loop computes CleanIds |
| ExcelImport.CleanIdsSpec | services/excel_service.py:113-124 | every cleaned Id is non-empty, stripped, not a null placeholder, and the stripped form of an input cell |
| ExcelImport.CleanIdsAppend | services/excel_service.py:113-124 | cleaning works cell by cell and keeps the input order |
| ExcelImport.CleanIdsIdempotent | services/excel_service.py:113-124 | cleaning an already cleaned column changes nothing |
| ExcelImport.ColumnName | services/excel_service.py:58 | a generated header starts with "Column_" |
| ExcelImport.Headers | services/excel_service.py:55-58 | as many headers as cells in the first row, and none for an empty sheet |
| ExcelImport.HeadersSpec | services/excel_service.py:55-58 | header cells keep their text; empty header cell i becomes "Column_" followed by i+1 |
| ExcelImport.PreviewRow | services/excel_service.py:68-72 | a preview row is exactly as wide as the headers |
| ExcelImport.ShapePreviewRow | services/excel_service.py:68-72 | the padding loop and the trim compute PreviewRow |
| ExcelImport.SheetPreview | services/excel_service.py:64-74 | one preview row per data row shown |
| ExcelImport.SheetPreviewSpec | services/excel_service.py:64-74 | the preview skips the header row and shows at most ten data rows, each shaped to the header width |
| ExcelImport.PreviewOfSheet | services/excel_service.py:64-74 | the preview loop with its `continue` and `break` computes SheetPreview |
| ExcelImport.OnlyFirstNamed | services/excel_service.py:63-77 | with distinct sheet names, only the first sheet contributes preview rows and the row count |
| ExcelImport.AllHeadersSpec | services/excel_service.py:51-60 | with distinct sheet names, every sheet's headers are recorded under its name |
| ExcelImport.ParseExcelFile | services/excel_service.py:39-87 | the sheet loop computes Parse |
| ExcelImport.ParseSpec | services/excel_service.py:39-87 | the headers of every sheet; the first sheet's preview; total rows at least the preview length; nothing for a workbook without sheets |
| ResultsExport.MatchedEntries | services/excel_service.py:265-282 | one MATCHED entry per matched pair, in order |
| ResultsExport.UnmatchedEntries | services/excel_service.py:285-301 | one UNMATCHED entry per unmatched customer, in order |
| ResultsExport.FlaggedEntries | services/excel_service.py:304-320 | one FLAGGED entry per flagged account, in order |
| ResultsExport.InvalidEntries | services/excel_service.py:323-338 | one INVALID entry, with a stand-in customer, per invalid Id, in order |
| ResultsExport.AppendMatched | services/excel_service.py:265-282 | the loop appends the matched entries |
| ResultsExport.AppendUnmatched | services/excel_service.py:285-301 | the loop appends the unmatched entries |
| ResultsExport.AppendFlagged | services/excel_service.py:304-320 | the loop appends the flagged entries |
| ResultsExport.AppendInvalid | services/excel_service.py:323-338 | the loop appends the invalid entries |
| ResultsExport.AssembleResults | services/excel_service.py:261-341 | the four loops and the sort by name compute Results |
| ResultsExport.LexIsStrictOrder | services/excel_service.py:341 | Python's string `<` is irreflexive and transitive |
| ResultsExport.LexTotal | services/excel_service.py:341 | any two different names are ordered one way or the other |
| ResultsExport.ResultsCounts | services/excel_service.py:261-341 | one entry per input, and each status labels exactly as many entries as its input list has |
| ResultsExport.ResultsOrder | services/excel_service.py:341 | the results are a permutation of the assembled entries, ordered by name, with equal names in append order |
| ResultsExport.AssembledShapes | services/excel_service.py:264-338 | only matched entries carry a shell, scores, an AI assessment and counts |
| ResultsExport.EntryShapes | services/excel_service.py:261-341 | every sorted entry has the shape of its status |
| ResultsExport.FormatAddress | services/excel_service.py:349-359 | the address loop computes AddressText |
| ResultsExport.AddressTextSpec | services/excel_service.py:349-373 | the address cell is empty exactly when every field is; a single present field is the whole cell |
| ResultsExport.FormatRow | services/excel_service.py:344-407 | one row per entry, in column order |
| ResultsExport.RowsOf | services/excel_service.py:343-407 | one row per entry, in entry order |
| ResultsExport.FormatRows | services/excel_service.py:343-410 | the row loop computes RowsOf |
| ResultsExport.ResultRows | services/excel_service.py:261-410 | the rows of the sheet are the rows of the sorted entries |
| ResultsExport.RowCells | services/excel_service.py:394-405 | score and count cells are blank exactly for values that are zero or less; without a shell the shell cells are empty |
| ResultsExport.RowNotes | services/excel_service.py:379-385 | each status gets its own processing note |
| ResultsExport.UnmatchedRow | services/excel_service.py:361-405 | an unreviewed entry has blank scores, no shell address and "No AI analysis (not matched)" |

## Left out

* I/O and external systems:
  * The Salesforce connection, the SOQL queries, and their exception paths are left out. Validation takes the set of Ids the query finds as a parameter.
  * The `zi_data_stats` counts of the shell validator are left out.
  * The bad-domain service is a parameter of the bad-domain split (`check`).
  * Reading a workbook (openpyxl, pandas) is left out. A sheet is given as its rows of cells and its `max_row`, and an Id column as its non-null cells as text.
  * Writing the results workbook is left out: styling, column widths, the title, timestamp and summary lines, the summary sheet, and saving.
  * The error dictionaries returned from `except` blocks are left out.
* URL parsing: `urlparse` is modelled only for the network location of a URL with a scheme, after urlsplit deletes every tab, carriage return and line feed. Ports, user info, IPv6 hosts and the exception path of `extract_domain_from_url` are left out.
* Characters: strings are ASCII in every character class. Unicode case mapping and Unicode whitespace are left out.
* difflib: the model is `SequenceMatcher` without junk and without the autojunk heuristic. The heuristic only applies to strings of 200 characters or more.
* Text formatting:
  * The `:.1f` texts are left out: the website and name explanations, the "Matched to shell ... % confidence" reason, and the percentage cells. The model keeps the numbers they format.
  * The success message of `find_best_shell_match` is left out for the same reason.
* Scoring.OverallSimilarity: floating-point rounding is left out. Scores are exact reals.
* ExcelImport.CleanAccountIds: does not model the rewrite of a cell containing "e+" through `float(...)` formatted with `:.0f`. The model keeps the stripped text, as the `except` path does.
* Missing values:
  * A missing Python field is the empty string, and `.get` defaults are the empty value of their type.
  * The "Bad domain detected" default explanation, for a flag without an explanation, is left out.
* The "Missing customer or shell address data" return of `compute_address_consistency_score` (fuzzy_matching_service.py:167-168) is left out. Both callers pass records that always hold the address keys, so neither dictionary is ever empty.
* CandidateIndex.FastFilterCandidates: the unused `candidate_id_set` (fuzzy_matching_service.py:303-304) is left out. Nothing reads it.
* Other parts of the repository: the route handlers, the AI assessment service, and `create_basic_excel` are not part of this model. An AI assessment enters the export as data.
