# hushhush URL cleaning engine in Dafny

hushhush takes a link someone wants to share and offers cleaned versions of it, with the
tracking ("source identifier") query parameters removed. The engine lives in `urlUtils.ts`
and exists in two diverging copies, both modelled here:

- the Next.js copy (`hushhush/src/app/utils/urlUtils.ts`, module `NextUrlUtils`):
  - validation throws a `ValidationError` and retries once with `https:` prepended;
  - a URL of a known platform gets one exact result;
  - any other URL gets one approximate candidate per subset of its remaining parameters,
    sorted by decreasing size.
- the Vite copy (`hushhush-vite/src/utils/urlUtils.ts`, module `ViteUrlUtils`):
  - validation answers with a result record;
  - `removeSourceIdentifiers` builds a two- or three-entry list;
  - `generateResultsList` enumerates the power set whether or not a platform is known,
    sorted by the default string sort of the comma-joined subsets.

Shared modules:

- `Strings`: the JavaScript string primitives the engine relies on.
  - `trim`, `toLowerCase` on host names, `includes`, the first-occurrence `replace`, `join`;
  - the default `sort` order.
- `SearchParams`: the query as the ordered name/value list of `URLSearchParams`, with
  `delete`, `get`, `set` and `keys` as section 6.2 of the WHATWG URL Standard defines them.
- `Urls`: a parsed URL record, plus the URL library (`new URL`, `toString` and the query
  serialiser). The library is a parameter of every operation that parses or serialises.
- `Registry`: the identifier registry `SourceIdentifiers.json`, passed in as an ordered list
  of entries, and the first-match scan of `identifyPlatform`.
- `UrlNormalizer`: `normalizeUrl`, identical in both copies.
  - The scheme test follows the scheme grammar of section 3.1 of RFC 3986.
  - It also holds the protocol allow-list and `getSupportedProtocols`.
- `PowerSets`: the bit-counter subset enumeration both copies use.
- `Combinations`: the per-subset query construction both copies use.

An operation that works step by step in the source is a method with loops. It is proved
against a specification function (`ensures result == Spec(...)`), and lemmas state what the
source promises about that function. Pure helpers are functions. A thrown exception that is
not caught is `None` or `Err`.

## Model

| member | source | states |
|---|---|---|
| UrlNormalizer.NormalizeUrlForms | react/hushhush/hushhush/src/app/utils/urlUtils.ts:44-52 | normalizing trims the input; the result is empty exactly when the trimmed input is; a non-empty result has a scheme; input with a scheme is only trimmed; otherwise `https:` or `https://` is put in front; the Vite copy of `normalizeUrl` is the same code |
| UrlNormalizer.NormalizeUrlIdempotent | react/hushhush/hushhush-vite/src/utils/urlUtils.ts:36-44 | normalising twice gives the same string as normalising once |
| UrlNormalizer.HasSchemeIff | react/hushhush/hushhush/src/app/utils/urlUtils.ts:48 | the scheme test holds exactly when the string starts with a letter followed by letters, digits, `+`, `.` or `-` and then `:` |
| UrlNormalizer.SchemeIsNotSlash | react/hushhush/hushhush/src/app/utils/urlUtils.ts:84-86 | a string that passes the scheme test does not start with `/`, so the protocol-relative test after it never fires |
| UrlNormalizer.GetSupportedProtocols | react/hushhush/hushhush-vite/src/utils/urlUtils.ts:31-33 | the supported protocols are exactly `["http", "https"]` |
| UrlNormalizer.AllowedProtocolsTextIsJoin | react/hushhush/hushhush-vite/src/utils/urlUtils.ts:52 | the allow-list joined with `, ` is the text `http:, https:` the refusal message quotes |
| UrlNormalizer.AllowedAreSupported | react/hushhush/hushhush-vite/src/utils/urlUtils.ts:29-33 | every allowed protocol with its colon removed is a supported protocol |
| NextUrlUtils.AppendUrlProtocol | react/hushhush/hushhush/src/app/utils/urlUtils.ts:67-76 | the result starts with the protocol followed by `//` and ends with the whole input |
| NextUrlUtils.IsUrlMissingProtocol | react/hushhush/hushhush/src/app/utils/urlUtils.ts:78-89 | a URL is missing its protocol exactly when its trim is empty or fails the scheme test |
| NextUrlUtils.AppendedUrlHasProtocol | react/hushhush/hushhush/src/app/utils/urlUtils.ts:112-115 | prepending `https:` always gives a string that is not missing its protocol, so the retry in `validateUrl` recurses at most once |
| NextUrlUtils.MentionsPfbidIff | react/hushhush/hushhush/src/app/utils/urlUtils.ts:62-65 | the PFBID scan succeeds exactly when `facebook.com/share/p/` followed by an ASCII letter or digit occurs somewhere in the string |
| NextUrlUtils.ValidateUrl | react/hushhush/hushhush/src/app/utils/urlUtils.ts:91-119 | a first attempt that succeeds is the answer; a failed one is retried with `https:` prepended only when the protocol is missing; a returned URL is the serialisation of an http(s) URL parsed from the input or the repaired input, with no PFBID anywhere in it |
| NextUrlUtils.ValidatedUrlHasNoPfbid | react/hushhush/hushhush/src/app/utils/urlUtils.ts:100-104 | a URL that validation returns never contains a pseudonymised Facebook identifier |
| NextUrlUtils.IdentifyPlatform | react/hushhush/hushhush/src/app/utils/urlUtils.ts:121-148 | no platform when the string does not parse; otherwise the first non-`global` entry, in registry order, with a domain occurring in the lower-cased host, reported with its name, slug and exact confidence; none exactly when no entry claims the host |
| NextUrlUtils.FindPlatform | react/hushhush/hushhush/src/app/utils/urlUtils.ts:121-148 | taking the host and scanning the entries with an early return computes exactly `IdentifyPlatform` |
| NextUrlUtils.AnalyzeQueryParams | react/hushhush/hushhush/src/app/utils/urlUtils.ts:150-181 | one record per pair, in order, with the same name and value and `isActive` set; it is marked as an identifier exactly when the name is a global or a platform identifier; the result is empty when the platform's entry is missing |
| NextUrlUtils.KeptPairsOfClassify | react/hushhush/hushhush/src/app/utils/urlUtils.ts:167-175 | the pairs not marked as identifiers are exactly, and in the same order, the pairs that deleting the identifiers keeps |
| NextUrlUtils.InsertBySizeSorted | react/hushhush/hushhush/src/app/utils/urlUtils.ts:195-196 | pushing a subset and re-sorting by decreasing length keeps the list sorted |
| NextUrlUtils.InsertBySizeStable | react/hushhush/hushhush/src/app/utils/urlUtils.ts:196 | the stable sort puts the new subset before the first shorter one and keeps the order of the others |
| NextUrlUtils.InsertBySizePermutes | react/hushhush/hushhush/src/app/utils/urlUtils.ts:195-196 | the re-sorted list is a permutation of the old list plus the new subset |
| NextUrlUtils.PushAndSortBySizeSorted | react/hushhush/hushhush/src/app/utils/urlUtils.ts:187-197 | after any sequence of pushes the list is sorted by decreasing size |
| NextUrlUtils.PushAndSortBySizePermutes | react/hushhush/hushhush/src/app/utils/urlUtils.ts:187-197 | after any sequence of pushes the list is a permutation of the subsets pushed |
| NextUrlUtils.SortedSubsetsAt | react/hushhush/hushhush/src/app/utils/urlUtils.ts:188-195 | the subset pushed at counter `k` is the sorted selection of the elements whose bit is set in `k` |
| NextUrlUtils.InsertBySizeIntoGroups | react/hushhush/hushhush/src/app/utils/urlUtils.ts:195-196 | when the list is grouped by size, pushing a subset and re-sorting puts it last in the group of its own size |
| NextUrlUtils.PushAndSortBySizeGroups | react/hushhush/hushhush/src/app/utils/urlUtils.ts:187-197 | after any sequence of pushes the list holds the subsets grouped by decreasing size, and within a group in the order they were pushed |
| NextUrlUtils.PowerSetOrderGroups | react/hushhush/hushhush/src/app/utils/urlUtils.ts:183-199 | the power set lists the subsets by decreasing size and, among subsets of one size, in the order of the counter that produced them |
| NextUrlUtils.PowerSetOrderSize | react/hushhush/hushhush/src/app/utils/urlUtils.ts:183-199 | the power set has `2^n` subsets and is sorted by decreasing size |
| NextUrlUtils.PowerSetOrderMembers | react/hushhush/hushhush/src/app/utils/urlUtils.ts:184-194 | every subset is sorted and uses each name at most as often as the input has it |
| NextUrlUtils.PowerSetOrderStartsFull | react/hushhush/hushhush/src/app/utils/urlUtils.ts:183-199 | the first subset holds every name |
| NextUrlUtils.PowerSetOrderEndsEmpty | react/hushhush/hushhush/src/app/utils/urlUtils.ts:183-199 | the last subset is empty |
| NextUrlUtils.GeneratePowerSet | react/hushhush/hushhush/src/app/utils/urlUtils.ts:183-199 | for at most 32 names, the nested counter loops with their sorts produce exactly the specified power-set order |
| NextUrlUtils.ExactResultOfPlatform | react/hushhush/hushhush/src/app/utils/urlUtils.ts:213-235 | with a platform the list is one exact result: the URL with global and platform identifiers deleted, and the analysis of the original URL, whose unmarked pairs are exactly those kept |
| NextUrlUtils.ApproximateResults | react/hushhush/hushhush/src/app/utils/urlUtils.ts:237-267 | without a platform there are `2^n` approximate candidates; candidate `i` is the URL, all its other components kept, with the query built from subset `i` of the power set of the remaining names, and that query is clean: pairs of the original, no global identifier, no empty value, no name twice, first values |
| NextUrlUtils.FirstCandidateKeepsAll | react/hushhush/hushhush/src/app/utils/urlUtils.ts:243-256 | the first candidate keeps exactly the remaining names that have a non-empty value |
| NextUrlUtils.LastCandidateIsBare | react/hushhush/hushhush/src/app/utils/urlUtils.ts:243-256 | the last candidate has no query at all |
| NextUrlUtils.PushCandidates | react/hushhush/hushhush/src/app/utils/urlUtils.ts:243-267 | the `forEach` pushes, in order, one candidate per subset: the scrubbed URL with only that subset's names, and the original URL's analysis |
| NextUrlUtils.BuildExactResult | react/hushhush/hushhush/src/app/utils/urlUtils.ts:213-235 | the platform branch deletes the platform's identifiers from the scrubbed query and gives the specified exact result |
| NextUrlUtils.CombineCandidates | react/hushhush/hushhush/src/app/utils/urlUtils.ts:237-267 | without a platform, the power set of the scrubbed names and the pushes give exactly the specified candidates |
| NextUrlUtils.GenerateResultsList | react/hushhush/hushhush/src/app/utils/urlUtils.ts:201-270 | the results are exactly the specified list, in both branches |
| ViteUrlUtils.ValidateUrl | react/hushhush/hushhush-vite/src/utils/urlUtils.ts:46-64 | a parse failure gives `ok: false` with only the generic message; otherwise the record carries the normalised string and the protocol, `ok` holds exactly when the protocol is allowed, and a refused protocol comes with the message naming it |
| ViteUrlUtils.AcceptedIsSupported | react/hushhush/hushhush-vite/src/utils/urlUtils.ts:29-64 | an accepted input's protocol, without its colon, is among the supported protocols |
| ViteUrlUtils.ValidateNormalizedAgain | react/hushhush/hushhush-vite/src/utils/urlUtils.ts:46-64 | validating the normalised form of an input gives the same record as validating the input |
| ViteUrlUtils.IsValidUrl | react/hushhush/hushhush-vite/src/utils/urlUtils.ts:278-285 | a string is valid exactly when its normalised form parses to an http or https URL |
| ViteUrlUtils.IdentifyPlatform | react/hushhush/hushhush-vite/src/utils/urlUtils.ts:66-88 | no platform when the normalised string does not parse; otherwise the first non-`global` entry, in registry order, with a domain occurring in the lower-cased host, named by its key with high confidence; none exactly when no entry claims the host |
| ViteUrlUtils.FindPlatform | react/hushhush/hushhush-vite/src/utils/urlUtils.ts:66-88 | normalising, parsing and scanning the entries with an early return computes exactly `IdentifyPlatform` |
| ViteUrlUtils.IdentifiedPlatformIsRegistered | react/hushhush/hushhush-vite/src/utils/urlUtils.ts:72-80 | a platform found names an entry of the registry |
| ViteUrlUtils.AnalyzeQueryParams | react/hushhush/hushhush-vite/src/utils/urlUtils.ts:90-123 | empty when the normalised string does not parse or the platform has no entry; otherwise one record per pair, in order, with the same name and value, `isRemoved` equal to `isSourceIdentifier`, which holds exactly for global and platform identifiers |
| ViteUrlUtils.ClassifyEach | react/hushhush/hushhush-vite/src/utils/urlUtils.ts:107-117 | the `forEach` pushes exactly the classification of every pair, in order |
| ViteUrlUtils.KeptPairsOfClassify | react/hushhush/hushhush-vite/src/utils/urlUtils.ts:107-117 | the pairs not marked as removed are exactly, and in order, the pairs that deleting the identifiers keeps |
| ViteUrlUtils.RemoveSourceIdentifiers | react/hushhush/hushhush-vite/src/utils/urlUtils.ts:125-197 | the result is exactly the specified list, including the `catch` answer for an input that does not parse |
| ViteUrlUtils.RemoveFromParsed | react/hushhush/hushhush-vite/src/utils/urlUtils.ts:129-189 | once the input has parsed, looking up the platform and pushing give exactly the specified answer, the `catch` answer when the platform has no entry |
| ViteUrlUtils.PushRemovalCandidates | react/hushhush/hushhush-vite/src/utils/urlUtils.ts:138-189 | the three pushes produce the specified candidates for a parsed URL |
| ViteUrlUtils.RemovalOfParsed | react/hushhush/hushhush-vite/src/utils/urlUtils.ts:125-190 | for an input that parses, the `catch` is never reached: the answer is the candidate list |
| ViteUrlUtils.RemovalCandidatesShape | react/hushhush/hushhush-vite/src/utils/urlUtils.ts:138-189 | two or three results, all with the platform; the first is the bare URL with no parameters; the last is the normalised input with low confidence; a middle one exists exactly when the cleaned query serialises to something, and it holds only non-identifier pairs |
| ViteUrlUtils.BareUrlDropsOtherComponents | react/hushhush/hushhush-vite/src/utils/urlUtils.ts:139-168 | the bare URL depends only on the scheme, host name and path: credentials, port, query and fragment of the input never reach it |
| ViteUrlUtils.RemovalMiddleResult | react/hushhush/hushhush-vite/src/utils/urlUtils.ts:154-176 | with a serialiser that writes nothing only for the empty query, the middle result exists exactly when some pair survives deleting the identifiers |
| ViteUrlUtils.InsertByKeySorted | react/hushhush/hushhush-vite/src/utils/urlUtils.ts:208-209 | pushing a subset and re-sorting by the comma-joined key keeps the list sorted |
| ViteUrlUtils.InsertByKeyStable | react/hushhush/hushhush-vite/src/utils/urlUtils.ts:209 | the stable sort puts the new subset before the first one with a greater key and keeps the order of the others |
| ViteUrlUtils.InsertByKeyPermutes | react/hushhush/hushhush-vite/src/utils/urlUtils.ts:208-209 | the re-sorted list is a permutation of the old list plus the new subset |
| ViteUrlUtils.PushAndSortByKeySorted | react/hushhush/hushhush-vite/src/utils/urlUtils.ts:201-210 | after any sequence of pushes the list is sorted by key |
| ViteUrlUtils.PushAndSortByKeyPermutes | react/hushhush/hushhush-vite/src/utils/urlUtils.ts:201-210 | after any sequence of pushes the list is a permutation of the subsets pushed |
| ViteUrlUtils.PushAndSortByKeyEmptyFirst | react/hushhush/hushhush-vite/src/utils/urlUtils.ts:201-210 | the empty subset, pushed first, stays first even when other subsets also have key `""` |
| ViteUrlUtils.SubsetsAt | react/hushhush/hushhush-vite/src/utils/urlUtils.ts:202-207 | the subset pushed at counter `k` holds, in array order, the elements whose bit is set in `k` |
| ViteUrlUtils.PowerSetOrderSize | react/hushhush/hushhush-vite/src/utils/urlUtils.ts:199-212 | the power set has `2^n` subsets, sorted by their comma-joined keys |
| ViteUrlUtils.PowerSetOrderMembers | react/hushhush/hushhush-vite/src/utils/urlUtils.ts:201-207 | every subset is the selection of some counter value below `2^n`, in array order |
| ViteUrlUtils.PowerSetOrderDrawsOnNames | react/hushhush/hushhush-vite/src/utils/urlUtils.ts:201-207 | every subset uses each name at most as often as the input has it |
| ViteUrlUtils.PowerSetOrderStartsEmpty | react/hushhush/hushhush-vite/src/utils/urlUtils.ts:199-212 | the first subset is the empty one |
| ViteUrlUtils.PowerSetOrderHasFull | react/hushhush/hushhush-vite/src/utils/urlUtils.ts:199-212 | the subset holding every name, in array order, is in the power set |
| ViteUrlUtils.GeneratePowerSet | react/hushhush/hushhush-vite/src/utils/urlUtils.ts:199-212 | for at most 32 names, the nested counter loops with their sorts produce exactly the specified power-set order |
| ViteUrlUtils.ResultsList | react/hushhush/hushhush-vite/src/utils/urlUtils.ts:218-219 | the list is missing (the function throws) exactly when the normalised input does not parse |
| ViteUrlUtils.CandidatesAreClean | react/hushhush/hushhush-vite/src/utils/urlUtils.ts:225-273 | `2^n` candidates for the `n` remaining pairs, even with a platform; each carries the platform and has high confidence exactly when there is one; candidate `i` is the URL with the query built from subset `i` of the power set, and that query is clean: pairs of the original, no global or platform identifier, no empty value, no name twice |
| ViteUrlUtils.FirstCandidateIsBare | react/hushhush/hushhush-vite/src/utils/urlUtils.ts:243-262 | the first candidate has no query at all |
| ViteUrlUtils.SomeCandidateKeepsAll | react/hushhush/hushhush-vite/src/utils/urlUtils.ts:243-262 | some candidate keeps exactly the remaining names that have a non-empty value |
| ViteUrlUtils.PushCandidates | react/hushhush/hushhush-vite/src/utils/urlUtils.ts:249-273 | the `forEach` pushes, in order, one candidate per subset |
| ViteUrlUtils.BuildCandidate | react/hushhush/hushhush-vite/src/utils/urlUtils.ts:250-270 | one turn of the `forEach` builds exactly the specified candidate for its subset |
| ViteUrlUtils.ScrubAndCombine | react/hushhush/hushhush-vite/src/utils/urlUtils.ts:225-273 | deleting the identifiers, taking the keys, building the power set and pushing produce exactly the specified candidate list |
| ViteUrlUtils.GenerateResultsList | react/hushhush/hushhush-vite/src/utils/urlUtils.ts:214-276 | the results are exactly the specified list, or none where the parse throws |
| Registry.FirstMatchIsFirst | react/hushhush/hushhush/src/app/utils/urlUtils.ts:130-144 | the scan finds the first non-`global` entry that claims the host, and finds none exactly when no entry claims it |
| Registry.ScanForPlatform | react/hushhush/hushhush-vite/src/utils/urlUtils.ts:72-84 | the loop over the entries and their domains, with its early return, computes exactly the first match |
| Registry.LookupOwnSlug | react/hushhush/hushhush/src/app/utils/urlUtils.ts:216-217 | in a registry with distinct keys, looking up an entry's own key finds that entry |
| SearchParams.DeleteAll | react/hushhush/hushhush/src/app/utils/urlUtils.ts:208-210 | deleting each identifier in turn leaves exactly the pairs whose name is not an identifier, in order |
| SearchParams.DeleteIdentifiers | react/hushhush/hushhush-vite/src/utils/urlUtils.ts:154-164 | deleting the global identifiers and then, when there are any, the platform's leaves exactly the pairs named in neither list |
| SearchParams.WithoutWithout | react/hushhush/hushhush-vite/src/utils/urlUtils.ts:154-164 | deleting the global identifiers and then the platform's is deleting both lists at once |
| SearchParams.Get | react/hushhush/hushhush/src/app/utils/urlUtils.ts:252 | `get` finds a value exactly when the name occurs, and the value is one that pair carries |
| SearchParams.GetIsFirst | react/hushhush/hushhush/src/app/utils/urlUtils.ts:252 | `get` answers with the value of the first pair that carries the name |
| SearchParams.Set | react/hushhush/hushhush/src/app/utils/urlUtils.ts:254 | after `set` the name occurs with the new value only, other pairs are untouched, and distinct names stay distinct; a new name is appended at the end, and an existing one keeps the place of its first pair while its later pairs are removed, the order of the rest unchanged |
| SearchParams.ReplaceFirstAt | react/hushhush/hushhush/src/app/utils/urlUtils.ts:254 | replacing an existing name keeps every pair before its first occurrence, puts the new value there, and keeps after it only the pairs with other names, in order |
| Combinations.BuildCombinationQuery | react/hushhush/hushhush/src/app/utils/urlUtils.ts:248-256 | clearing the query and setting each name of the subset that has a non-empty value gives exactly the specified query |
| Combinations.CombinationQueryKeeps | react/hushhush/hushhush-vite/src/utils/urlUtils.ts:250-256 | the query keeps exactly the subset's names with a non-empty value, once each, with their first value in the scrubbed query |
| Combinations.CombinationQueryIsClean | react/hushhush/hushhush/src/app/utils/urlUtils.ts:243-256 | a candidate built from the scrubbed query holds only original pairs, no identifier, no empty value, no repeated name |
| Combinations.FullCombinationKeeps | react/hushhush/hushhush/src/app/utils/urlUtils.ts:251-255 | a subset holding every name keeps exactly the names whose first value is non-empty |
| PowerSets.SelectSubset | react/hushhush/hushhush/src/app/utils/urlUtils.ts:188-193 | the inner loop selects exactly the elements whose bit is set in the counter, in order |
| PowerSets.ChosenByMask | react/hushhush/hushhush-vite/src/utils/urlUtils.ts:200-207 | the last counter value `2^n - 1` selects every element |
| PowerSets.ChosenAll | react/hushhush/hushhush-vite/src/utils/urlUtils.ts:200-207 | with all `n` positions, counter `2^n - 1` selects the whole array |
| PowerSets.ChosenByZero | react/hushhush/hushhush-vite/src/utils/urlUtils.ts:200-207 | counter 0 selects nothing |
| Strings.SortStrings | react/hushhush/hushhush/src/app/utils/urlUtils.ts:184 | the default string sort gives a sorted permutation |
| Strings.ContainsIff | react/hushhush/hushhush/src/app/utils/urlUtils.ts:134 | `includes` holds exactly when the needle occurs at some position |
| Strings.LessEqTransitive | react/hushhush/hushhush-vite/src/utils/urlUtils.ts:209 | the string order used by the default sort is transitive |
| Strings.LessEqTotal | react/hushhush/hushhush-vite/src/utils/urlUtils.ts:209 | any two strings are comparable in that order |
| Strings.RemoveFirst | react/hushhush/hushhush-vite/src/utils/urlUtils.ts:32 | the one-character `replace` removes exactly the first occurrence when there is one, keeping the rest in order, and changes nothing otherwise |

## Left out

- URL parsing and serialisation are left out: how a string splits into the record's
  components, host parsing, percent-encoding and the exact text of `toString` and of
  `URLSearchParams.toString()`. They belong to a foreign
  library, so they are parameters. `new URL(u)` on a parsed URL is a copy of the record, and
  so is `new URL(scrubbedUrl.toString())`. `new URLSearchParams(urlObj.search)` is taken to
  be the URL's own query list.
- `SourceIdentifiers.json` is not part of this model. The registry is a parameter, assumed
  to have distinct keys and a `global` entry.
  - `Object.entries` order is taken to be the file's declaration order. JavaScript would put
    integer-like keys first.
  - The unused `sourceIdentifiers['facebook']` read in `removeSourceIdentifiers` has no
    effect and is left out.
- `console.log` calls are left out: they have no effect on the results.
- The React user interface is left out, including the parameter toggle it mentions.
- Exception messages produced by the URL library are left out. A parse failure is
  `InvalidUrl` in the Next.js copy, and the Vite copy's `catch` ignores the message.
- Strings.ToLowerAscii: lower-cases ASCII letters only, because host names produced by the
  URL parser are ASCII (internationalised names arrive in Punycode).
- Strings.LessEq: compares characters by code point. JavaScript's default sort compares
  UTF-16 code units, which orders characters above U+FFFF differently.
- NextUrlUtils.GeneratePowerSet: requires at most 32 names. `1 << j` is a 32-bit shift in
  JavaScript, so larger inputs are not enumerated as the code intends.
- ViteUrlUtils.GeneratePowerSet: requires at most 32 names, for the same reason.
- NextUrlUtils.GenerateResultsList: requires at most 32 remaining names when no platform is
  found, so that its call to `generatePowerSet` is exact.
- ViteUrlUtils.GenerateResultsList: requires at most 32 remaining names, for the same reason.
- The re-sort after each push is modelled as a stable insertion of the new subset into the
  already sorted list. `Array.prototype.sort` is stable, so the outcome is the same; the
  merge steps of the engine's sort are not modelled.
- ViteUrlUtils.RemovalMiddleResult: states the "exactly when a pair is left" form only for
  a serialiser that writes nothing exactly for the empty list. `RemovalCandidatesShape`
  states it for any serialiser, in terms of the serialised text.
