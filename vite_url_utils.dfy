/**
 * The cleaning engine of the Vite copy of hushhush (`hushhush-vite/src/utils/urlUtils.ts`):
 * validation that answers with a result record instead of throwing, platform
 * identification on strings, parameter analysis, the three-candidate
 * `removeSourceIdentifiers`, and the power-set `generateResultsList`.
 */
module ViteUrlUtils {
  import opened Options
  import opened Strings
  import opened SearchParams
  import opened Urls
  import opened Registry
  import opened UrlNormalizer
  import opened PowerSets
  import opened Combinations

  datatype Confidence = High | Low

  /** `name` is the registry key (the slug); this copy keeps no display name. */
  datatype PlatformInfo = PlatformInfo(name: string, confidence: Confidence)

  datatype QueryParamInfo = QueryParamInfo(name: string, value: string, isRemoved: bool, isSourceIdentifier: bool)

  datatype CleanUrlResult = CleanUrlResult(
    url: string,
    platform: Option<PlatformInfo>,
    confidence: Confidence,
    queryParams: seq<QueryParamInfo>)

  datatype UrlValidationResult = UrlValidationResult(
    ok: bool,
    normalized: Option<string>,
    error: Option<string>,
    protocol: Option<string>)

  const InvalidUrlMessage: string := "Please enter a valid URL."

  // ---------------------------------------------------------------- validation

  /**
   * `validateUrl(input)`: the normalised input must parse and its protocol must be on the
   * allow-list; a parse failure reports only the generic message, a refused protocol also
   * reports the normalised string and the protocol.
   */
  function ValidateUrl(lib: UrlLibrary, input: string): (r: UrlValidationResult)
    ensures lib.parse(NormalizeUrl(input)).None? ==>
      r == UrlValidationResult(false, None, Some(InvalidUrlMessage), None)
    ensures lib.parse(NormalizeUrl(input)).Some? ==>
      var protocol := lib.parse(NormalizeUrl(input)).value.protocol;
      && r.normalized == Some(NormalizeUrl(input)) && r.protocol == Some(protocol)
      && (r.ok <==> protocol in AllowedProtocols)
      && (r.ok ==> r.error.None?)
      && (!r.ok ==> r.error == Some(UnsupportedProtocolMessage(protocol)))
  {
    var normalized := NormalizeUrl(input);
    match lib.parse(normalized)
    case None => UrlValidationResult(false, None, Some(InvalidUrlMessage), None)
    case Some(urlObj) =>
      if urlObj.protocol !in AllowedProtocols then
        UrlValidationResult(false, Some(normalized), Some(UnsupportedProtocolMessage(urlObj.protocol)), Some(urlObj.protocol))
      else UrlValidationResult(true, Some(normalized), None, Some(urlObj.protocol))
  }

  /** An accepted input's protocol, without its colon, is one `getSupportedProtocols()` lists. */
  lemma AcceptedIsSupported(lib: UrlLibrary, input: string)
    requires ValidateUrl(lib, input).ok
    ensures var r := ValidateUrl(lib, input);
      r.protocol.Some? && RemoveFirst(r.protocol.value, ':') in GetSupportedProtocols()
  {
    AllowedAreSupported(ValidateUrl(lib, input).protocol.value);
  }

  /** Validating the normalised form of an input again gives the same verdict. */
  lemma ValidateNormalizedAgain(lib: UrlLibrary, input: string)
    ensures ValidateUrl(lib, NormalizeUrl(input)) == ValidateUrl(lib, input)
  {
    NormalizeUrlIdempotent(input);
  }

  /** `isValidUrl(urlString)`: whether validation accepts the string. */
  function IsValidUrl(lib: UrlLibrary, urlString: string): (r: bool)
    ensures r <==> lib.parse(NormalizeUrl(urlString)).Some?
                   && lib.parse(NormalizeUrl(urlString)).value.protocol in AllowedProtocols
  {
    ValidateUrl(lib, urlString).ok
  }

  // ---------------------------------------------------------------- platform

  /** The lower-cased host name of the normalised string, if it parses. */
  function HostOf(lib: UrlLibrary, url: string): Option<string> {
    var parsed := lib.parse(NormalizeUrl(url));
    if parsed.Some? then Some(ToLowerAscii(parsed.value.hostname)) else None
  }

  /** `identifyPlatform(url)`: scans the registry for the lower-cased host of the normalised string. */
  function IdentifyPlatform(lib: UrlLibrary, reg: seq<Entry>, url: string): (r: Option<PlatformInfo>)
    ensures HostOf(lib, url).None? ==> r.None?
    ensures r.Some? ==> r.value.confidence == High
    ensures HostOf(lib, url).Some? ==>
      var host := HostOf(lib, url).value;
      && (r.None? <==> forall k :: 0 <= k < |reg| ==> !Claims(reg, host, k))
      && (r.Some? ==> exists k :: Claims(reg, host, k) && (forall m :: 0 <= m < k ==> !Claims(reg, host, m))
                                  && r.value == PlatformInfo(reg[k].slug, High))
  {
    match HostOf(lib, url)
    case None => None
    case Some(host) =>
      FirstMatchIsFirst(reg, host);
      match FirstMatch(reg, host)
      case None => None
      case Some(k) =>
        assert Claims(reg, host, k);
        Some(PlatformInfo(reg[k].slug, High))
  }

  /** `identifyPlatform(url)` as the source runs it: normalise, parse, then scan the registry entries. */
  method FindPlatform(lib: UrlLibrary, reg: seq<Entry>, url: string) returns (r: Option<PlatformInfo>)
    ensures r == IdentifyPlatform(lib, reg, url)
  {
    var host := HostOf(lib, url);
    if host.None? {
      return None;
    }
    var found := ScanForPlatform(reg, host.value);
    if found.None? {
      return None;
    }
    r := Some(PlatformInfo(reg[found.value].slug, High));
  }

  /** A platform `identifyPlatform` reports names a registry entry. */
  lemma IdentifiedPlatformIsRegistered(lib: UrlLibrary, reg: seq<Entry>, url: string)
    requires IdentifyPlatform(lib, reg, url).Some?
    ensures Lookup(reg, IdentifyPlatform(lib, reg, url).value.name).Some?
  {
    var host := ToLowerAscii(lib.parse(NormalizeUrl(url)).value.hostname);
    var k := FirstMatch(reg, host).value;
    assert Slugs(reg)[k] == reg[k].slug;
  }

  /** The identifiers of the platform's own registry entry; none without a platform or entry. */
  function PlatformIds(reg: seq<Entry>, platform: Option<PlatformInfo>): seq<string> {
    if platform.None? then []
    else match Lookup(reg, platform.value.name)
      case None => []
      case Some(e) => e.sourceIdentifiers
  }

  // ---------------------------------------------------------------- analysis

  /** One record per pair, in order, marked as removed exactly when it is an identifier. */
  function Classify(q: seq<Param>, ids: seq<string>): (r: seq<QueryParamInfo>)
    ensures |r| == |q|
    ensures forall k :: 0 <= k < |q| ==>
      r[k] == QueryParamInfo(q[k].name, q[k].value, q[k].name in ids, q[k].name in ids)
  {
    seq(|q|, k requires 0 <= k < |q| => QueryParamInfo(q[k].name, q[k].value, q[k].name in ids, q[k].name in ids))
  }

  /**
   * What `analyzeQueryParams(url, platform)` returns: `[]` when the normalised string does not
   * parse or the platform has no registry entry (both throw inside the `try`), otherwise the
   * classification of its query against the global identifiers followed by the platform's.
   */
  function Analysis(lib: UrlLibrary, reg: seq<Entry>, url: string, platform: Option<PlatformInfo>): seq<QueryParamInfo>
    requires WellFormed(reg)
  {
    match lib.parse(NormalizeUrl(url))
    case None => []
    case Some(urlObj) =>
      if platform.Some? && Lookup(reg, platform.value.name).None? then []
      else Classify(urlObj.query, GlobalIds(reg) + PlatformIds(reg, platform))
  }

  /** `analyzeQueryParams(url, platform)`: pushes one record per query pair. */
  method AnalyzeQueryParams(lib: UrlLibrary, reg: seq<Entry>, url: string, platform: Option<PlatformInfo>)
    returns (queryParams: seq<QueryParamInfo>)
    requires WellFormed(reg)
    ensures queryParams == Analysis(lib, reg, url, platform)
    ensures lib.parse(NormalizeUrl(url)).None? ==> queryParams == []
    ensures platform.Some? && Lookup(reg, platform.value.name).None? ==> queryParams == []
    ensures lib.parse(NormalizeUrl(url)).Some? && (platform.None? || Lookup(reg, platform.value.name).Some?) ==>
      var q := lib.parse(NormalizeUrl(url)).value.query;
      && |queryParams| == |q|
      && forall k :: 0 <= k < |q| ==>
        && queryParams[k].name == q[k].name
        && queryParams[k].value == q[k].value
        && queryParams[k].isRemoved == queryParams[k].isSourceIdentifier
        && (queryParams[k].isSourceIdentifier <==> q[k].name in GlobalIds(reg) || q[k].name in PlatformIds(reg, platform))
  {
    var parsed := lib.parse(NormalizeUrl(url));
    if parsed.None? {
      return [];
    }
    var urlObj := parsed.value;
    if platform.Some? && Lookup(reg, platform.value.name).None? {
      return [];
    }
    var allSourceIdentifiers := GlobalIds(reg) + PlatformIds(reg, platform);
    queryParams := ClassifyEach(urlObj.query, allSourceIdentifiers);
  }

  /** The `searchParams.forEach` of `analyzeQueryParams`: one record pushed per pair. */
  method ClassifyEach(query: seq<Param>, allSourceIdentifiers: seq<string>) returns (queryParams: seq<QueryParamInfo>)
    ensures queryParams == Classify(query, allSourceIdentifiers)
  {
    queryParams := [];
    var k := 0;
    while k < |query|
      invariant 0 <= k <= |query|
      invariant queryParams == Classify(query[..k], allSourceIdentifiers)
    {
      var p := query[k];
      var isSourceIdentifier := p.name in allSourceIdentifiers;
      queryParams := queryParams + [QueryParamInfo(p.name, p.value, isSourceIdentifier, isSourceIdentifier)];
      k := k + 1;
    }
    assert query[..k] == query;
  }

  /** The pairs of the records not marked as removed. */
  function KeptPairs(infos: seq<QueryParamInfo>): seq<Param> {
    if infos == [] then []
    else (if infos[0].isRemoved then [] else [Param(infos[0].name, infos[0].value)]) + KeptPairs(infos[1..])
  }

  /**
   * The analysis and the scrubbing agree: the parameters not marked as removed are exactly
   * those that deleting the identifiers keeps, in the same order.
   */
  lemma {:induction false} KeptPairsOfClassify(q: seq<Param>, ids: seq<string>)
    ensures KeptPairs(Classify(q, ids)) == Without(q, ids)
  {
    if q != [] {
      assert Classify(q, ids)[1..] == Classify(q[1..], ids);
      KeptPairsOfClassify(q[1..], ids);
    }
  }

  // ---------------------------------------------------------------- removeSourceIdentifiers

  /**
   * `${protocol}//${hostname}${pathname}`: the URL with neither query nor fragment, and also
   * without credentials or port, since `hostname` does not carry them.
   */
  function BareUrl(urlObj: UrlRecord): string {
    urlObj.protocol + "//" + urlObj.hostname + urlObj.pathname
  }

  /**
   * Two URLs with the same scheme, host name and path have the same bare URL, whatever their
   * credentials, port, query and fragment: a port in the input does not reach any result.
   */
  lemma BareUrlDropsOtherComponents(urlObj: UrlRecord, other: UrlRecord)
    requires other.protocol == urlObj.protocol && other.hostname == urlObj.hostname
    requires other.pathname == urlObj.pathname
    ensures BareUrl(other) == BareUrl(urlObj)
  {
  }

  function ConfidenceOf(platform: Option<PlatformInfo>): Confidence {
    if platform.Some? then High else Low
  }

  /** The `catch` answer: the normalised input alone, with low confidence. */
  function Fallback(url: string): CleanUrlResult {
    CleanUrlResult(NormalizeUrl(url), None, Low, [])
  }

  /**
   * The candidates `removeSourceIdentifiers` builds for a parsed URL whose platform, if any,
   * has a registry entry: the bare URL first; then, when some pair survives deleting the
   * global and the platform's identifiers (the serialised query is non-empty), the bare URL
   * with that query; last the normalised input with low confidence.
   */
  function RemovalCandidates(lib: UrlLibrary, reg: seq<Entry>, normalized: string, urlObj: UrlRecord,
                             platform: Option<PlatformInfo>): (r: seq<CleanUrlResult>)
    requires WellFormed(reg)
    ensures 2 <= |r| <= 3
    ensures |r| == 3 ==> r[1].platform == platform
    ensures r[0] == CleanUrlResult(BareUrl(urlObj), platform, ConfidenceOf(platform), [])
    ensures r[|r| - 1] == CleanUrlResult(normalized, platform, Low, Analysis(lib, reg, normalized, platform))
  {
    var first := CleanUrlResult(BareUrl(urlObj), platform, ConfidenceOf(platform), []);
    var last := CleanUrlResult(normalized, platform, Low, Analysis(lib, reg, normalized, platform));
    var search := lib.serializeQuery(Without(urlObj.query, GlobalIds(reg) + PlatformIds(reg, platform)));
    if search != "" then
      var cleanedUrl := BareUrl(urlObj) + "?" + search;
      [first, CleanUrlResult(cleanedUrl, platform, ConfidenceOf(platform), Analysis(lib, reg, cleanedUrl, platform)), last]
    else [first, last]
  }

  /**
   * What `removeSourceIdentifiers(url)` returns: the candidates for the parsed normalised
   * input; a string that does not parse gives the `catch` answer, and so would a platform
   * without a registry entry.
   */
  function Removal(lib: UrlLibrary, reg: seq<Entry>, url: string): seq<CleanUrlResult>
    requires WellFormed(reg)
  {
    match lib.parse(NormalizeUrl(url))
    case None => [Fallback(url)]
    case Some(urlObj) => ParsedRemoval(lib, reg, url, urlObj)
  }

  /** The answer once the normalised input has parsed to `urlObj`. */
  function ParsedRemoval(lib: UrlLibrary, reg: seq<Entry>, url: string, urlObj: UrlRecord): seq<CleanUrlResult>
    requires WellFormed(reg)
  {
    var normalized := NormalizeUrl(url);
    var platform := IdentifyPlatform(lib, reg, normalized);
    if platform.Some? && Lookup(reg, platform.value.name).None? then [Fallback(url)]
    else RemovalCandidates(lib, reg, normalized, urlObj, platform)
  }

  /** `removeSourceIdentifiers(url)`: the `try` block up to the platform lookup. */
  method RemoveSourceIdentifiers(lib: UrlLibrary, reg: seq<Entry>, url: string) returns (results: seq<CleanUrlResult>)
    requires WellFormed(reg)
    ensures results == Removal(lib, reg, url)
  {
    var normalized := NormalizeUrl(url);
    var parsed := lib.parse(normalized);
    if parsed.None? {
      return [Fallback(url)];
    }
    results := RemoveFromParsed(lib, reg, url, normalized, parsed.value);
  }

  /** The rest of the `try` block once `new URL(normalizedUrl)` has succeeded. */
  method RemoveFromParsed(lib: UrlLibrary, reg: seq<Entry>, url: string, normalized: string, urlObj: UrlRecord)
    returns (results: seq<CleanUrlResult>)
    requires WellFormed(reg) && normalized == NormalizeUrl(url)
    ensures results == ParsedRemoval(lib, reg, url, urlObj)
  {
    var platform := FindPlatform(lib, reg, normalized);
    var platformIdentifiers: seq<string> := [];
    if platform.Some? {
      var platformConfig := Lookup(reg, platform.value.name);
      if platformConfig.None? {
        return [Fallback(url)];
      }
      platformIdentifiers := platformConfig.value.sourceIdentifiers;
    }
    results := PushRemovalCandidates(lib, reg, normalized, urlObj, platform, platformIdentifiers);
  }

  /**
   * The pushes of `removeSourceIdentifiers`: the bare URL, the bare URL with the cleaned
   * query when that serialises to something, and the normalised input.
   */
  method PushRemovalCandidates(lib: UrlLibrary, reg: seq<Entry>, normalized: string, urlObj: UrlRecord,
                               platform: Option<PlatformInfo>, platformIdentifiers: seq<string>)
    returns (results: seq<CleanUrlResult>)
    requires WellFormed(reg) && platformIdentifiers == PlatformIds(reg, platform)
    requires platform.Some? ==> Lookup(reg, platform.value.name).Some?
    ensures results == RemovalCandidates(lib, reg, normalized, urlObj, platform)
  {
    results := [CleanUrlResult(BareUrl(urlObj), platform, ConfidenceOf(platform), [])];
    var queryParams := DeleteIdentifiers(urlObj.query, GlobalIds(reg), platformIdentifiers);
    var search := lib.serializeQuery(queryParams);
    if search != "" {
      var cleanedUrl := BareUrl(urlObj) + "?" + search;
      var cleanedQueryParams := AnalyzeQueryParams(lib, reg, cleanedUrl, platform);
      results := results + [CleanUrlResult(cleanedUrl, platform, ConfidenceOf(platform), cleanedQueryParams)];
    }
    var originalQueryParams := AnalyzeQueryParams(lib, reg, normalized, platform);
    results := results + [CleanUrlResult(normalized, platform, Low, originalQueryParams)];
  }

  /** The middle candidate: there is one exactly when the cleaned query serialises to something. */
  lemma RemovalCandidatesMiddle(lib: UrlLibrary, reg: seq<Entry>, normalized: string, urlObj: UrlRecord,
                                platform: Option<PlatformInfo>)
    requires WellFormed(reg)
    ensures var r := RemovalCandidates(lib, reg, normalized, urlObj, platform);
      var ids := GlobalIds(reg) + PlatformIds(reg, platform);
      var cleaned := Without(urlObj.query, ids);
      && (|r| == 3 <==> lib.serializeQuery(cleaned) != "")
      && (|r| == 3 ==> r[1].url == BareUrl(urlObj) + "?" + lib.serializeQuery(cleaned)
                       && forall p :: p in cleaned ==> p in urlObj.query && p.name !in ids)
  {
  }

  /**
   * Two or three candidates, all carrying the platform: the first is the bare URL with no
   * parameters, the last the normalised input with low confidence and the analysis of its
   * query; a middle one exists exactly when the query left after deleting the identifiers
   * serialises to something, and then it is the bare URL with that query, which holds only
   * pairs of the original query that are not identifiers.
   */
  lemma RemovalCandidatesShape(lib: UrlLibrary, reg: seq<Entry>, normalized: string, urlObj: UrlRecord,
                               platform: Option<PlatformInfo>)
    requires WellFormed(reg)
    ensures var r := RemovalCandidates(lib, reg, normalized, urlObj, platform);
      var ids := GlobalIds(reg) + PlatformIds(reg, platform);
      var cleaned := Without(urlObj.query, ids);
      && (|r| == 3 <==> lib.serializeQuery(cleaned) != "")
      && 2 <= |r| <= 3
      && (forall i :: 0 <= i < |r| ==> r[i].platform == platform)
      && r[0] == CleanUrlResult(BareUrl(urlObj), platform, ConfidenceOf(platform), [])
      && r[|r| - 1] == CleanUrlResult(normalized, platform, Low, Analysis(lib, reg, normalized, platform))
      && (|r| == 3 ==> r[1].url == BareUrl(urlObj) + "?" + lib.serializeQuery(cleaned)
                       && forall p :: p in cleaned ==> p in urlObj.query && p.name !in ids)
  {
    RemovalCandidatesMiddle(lib, reg, normalized, urlObj, platform);
    var r := RemovalCandidates(lib, reg, normalized, urlObj, platform);
    forall i | 0 <= i < |r| ensures r[i].platform == platform {
      if i != 0 && i != |r| - 1 {
        assert |r| == 3 && i == 1;
      }
    }
  }

  /**
   * A string whose normalised form parses never reaches the `catch`: its platform, if any,
   * has a registry entry, so the answer is the candidate list.
   */
  lemma RemovalOfParsed(lib: UrlLibrary, reg: seq<Entry>, url: string, urlObj: UrlRecord)
    requires WellFormed(reg) && lib.parse(NormalizeUrl(url)) == Some(urlObj)
    ensures Removal(lib, reg, url)
      == RemovalCandidates(lib, reg, NormalizeUrl(url), urlObj, IdentifyPlatform(lib, reg, NormalizeUrl(url)))
  {
    var platform := IdentifyPlatform(lib, reg, NormalizeUrl(url));
    if platform.Some? {
      IdentifiedPlatformIsRegistered(lib, reg, NormalizeUrl(url));
    }
  }

  /** The serialiser writes at least one character for every non-empty list of pairs. */
  ghost predicate SerializesNonEmpty(lib: UrlLibrary) {
    forall q: seq<Param> :: q != [] ==> lib.serializeQuery(q) != ""
  }

  /**
   * With such a serialiser, the middle result appears exactly when some pair other than an
   * identifier is left.
   */
  lemma RemovalMiddleResult(lib: UrlLibrary, reg: seq<Entry>, url: string, urlObj: UrlRecord)
    requires WellFormed(reg) && lib.parse(NormalizeUrl(url)) == Some(urlObj)
    requires SerializesNonEmpty(lib) && lib.serializeQuery([]) == ""
    ensures var platform := IdentifyPlatform(lib, reg, NormalizeUrl(url));
      |Removal(lib, reg, url)| == 3 <==> Without(urlObj.query, GlobalIds(reg) + PlatformIds(reg, platform)) != []
  {
    RemovalOfParsed(lib, reg, url, urlObj);
    RemovalCandidatesShape(lib, reg, NormalizeUrl(url), urlObj, IdentifyPlatform(lib, reg, NormalizeUrl(url)));
  }

  // ---------------------------------------------------------------- power set

  /** What the default `sort` compares for an array of strings: its `toString()`, the elements joined by commas. */
  function SubsetKey(subset: seq<string>): string {
    Join(subset, ",")
  }

  /** Keys never decrease along the list. */
  ghost predicate SortedByKey(list: seq<seq<string>>) {
    forall i, j :: 0 <= i < j < |list| ==> LessEq(SubsetKey(list[i]), SubsetKey(list[j]))
  }

  /**
   * `powerset.sort()` right after pushing `x` onto a list that is already sorted: the sort is
   * stable, so `x` lands after every subset whose key is at most its own and before the
   * first one whose key is greater.
   */
  function InsertByKey(list: seq<seq<string>>, x: seq<string>): (r: seq<seq<string>>)
    ensures |r| == |list| + 1
  {
    if list == [] || !LessEq(SubsetKey(list[0]), SubsetKey(x)) then [x] + list
    else [list[0]] + InsertByKey(list[1..], x)
  }

  /** Where `InsertByKey` puts the new subset: before the first one with a greater key. */
  function KeyPosition(list: seq<seq<string>>, x: seq<string>): (p: nat)
    ensures p <= |list|
    ensures forall k :: 0 <= k < p ==> LessEq(SubsetKey(list[k]), SubsetKey(x))
    ensures p < |list| ==> !LessEq(SubsetKey(list[p]), SubsetKey(x))
  {
    if list == [] || !LessEq(SubsetKey(list[0]), SubsetKey(x)) then 0 else 1 + KeyPosition(list[1..], x)
  }

  /** The insertion is stable: the list's own order is kept on both sides of `x`. */
  lemma {:induction false} InsertByKeyStable(list: seq<seq<string>>, x: seq<string>)
    ensures var p := KeyPosition(list, x); InsertByKey(list, x) == list[..p] + [x] + list[p..]
  {
    if list != [] && LessEq(SubsetKey(list[0]), SubsetKey(x)) {
      var tail := list[1..];
      InsertByKeyStable(tail, x);
      var p := KeyPosition(tail, x);
      assert list[..p + 1] == [list[0]] + tail[..p];
      assert list[p + 1..] == tail[p..];
    } else {
      assert list[..0] == [] && list[0..] == list;
    }
  }

  /** Element `k` of the list after the insertion. */
  lemma InsertByKeyAt(list: seq<seq<string>>, x: seq<string>, k: nat)
    requires k <= |list|
    ensures var p := KeyPosition(list, x);
      InsertByKey(list, x)[k] == if k < p then list[k] else if k == p then x else list[k - 1]
  {
    InsertByKeyStable(list, x);
  }

  /** Inserting into a list sorted by key keeps it sorted. */
  lemma InsertByKeySorted(list: seq<seq<string>>, x: seq<string>)
    requires SortedByKey(list)
    ensures SortedByKey(InsertByKey(list, x))
  {
    var p := KeyPosition(list, x);
    var r := InsertByKey(list, x);
    forall i, j | 0 <= i < j < |r| ensures LessEq(SubsetKey(r[i]), SubsetKey(r[j])) {
      InsertByKeyAt(list, x, i);
      InsertByKeyAt(list, x, j);
      if i == p {
        LessEqTotal(SubsetKey(x), SubsetKey(list[p]));
        if j - 1 > p {
          LessEqTransitive(SubsetKey(x), SubsetKey(list[p]), SubsetKey(list[j - 1]));
        }
      } else if j == p && i < p {
        assert LessEq(SubsetKey(list[i]), SubsetKey(x));
      }
    }
  }

  /** Inserting adds exactly the new subset. */
  lemma InsertByKeyPermutes(list: seq<seq<string>>, x: seq<string>)
    ensures multiset(InsertByKey(list, x)) == multiset(list) + multiset{x}
  {
    InsertByKeyStable(list, x);
    SpliceMultiset(list, KeyPosition(list, x), x);
  }

  /** A list that starts with the empty subset still does after an insertion: no key sorts below `""`. */
  lemma InsertByKeyKeepsEmptyFirst(list: seq<seq<string>>, x: seq<string>)
    requires |list| > 0 && list[0] == []
    ensures InsertByKey(list, x)[0] == []
  {
    EmptyIsLeast(SubsetKey(x));
  }

  /** The list after pushing each element of `pushed` in turn and re-sorting after each push. */
  function PushAndSortByKey(pushed: seq<seq<string>>): (r: seq<seq<string>>)
    ensures |r| == |pushed|
  {
    if pushed == [] then []
    else InsertByKey(PushAndSortByKey(pushed[..|pushed| - 1]), pushed[|pushed| - 1])
  }

  lemma {:induction false} PushAndSortByKeySorted(pushed: seq<seq<string>>)
    ensures SortedByKey(PushAndSortByKey(pushed))
  {
    if pushed != [] {
      PushAndSortByKeySorted(pushed[..|pushed| - 1]);
      InsertByKeySorted(PushAndSortByKey(pushed[..|pushed| - 1]), pushed[|pushed| - 1]);
    }
  }

  lemma {:induction false} PushAndSortByKeyPermutes(pushed: seq<seq<string>>)
    ensures multiset(PushAndSortByKey(pushed)) == multiset(pushed)
  {
    if pushed != [] {
      var front := pushed[..|pushed| - 1];
      var last := pushed[|pushed| - 1];
      PushAndSortByKeyPermutes(front);
      InsertByKeyPermutes(PushAndSortByKey(front), last);
      assert pushed == front + [last];
      assert multiset(pushed) == multiset(front) + multiset{last};
    }
  }

  /** A subset is in the sorted list exactly when it was pushed. */
  lemma PushAndSortByKeyMembers(pushed: seq<seq<string>>, s: seq<string>)
    ensures s in PushAndSortByKey(pushed) <==> s in pushed
  {
    PushAndSortByKeyPermutes(pushed);
    assert s in PushAndSortByKey(pushed) <==> s in multiset(PushAndSortByKey(pushed));
    assert s in pushed <==> s in multiset(pushed);
  }

  /**
   * When the empty subset is pushed first it stays first: later subsets whose key is also
   * `""` land behind it, the sort being stable.
   */
  lemma {:induction false} PushAndSortByKeyEmptyFirst(pushed: seq<seq<string>>)
    requires |pushed| > 0 && pushed[0] == []
    ensures PushAndSortByKey(pushed)[0] == []
  {
    var front := pushed[..|pushed| - 1];
    if |front| == 0 {
      assert PushAndSortByKey(pushed) == InsertByKey([], pushed[0]);
    } else {
      assert front[0] == [];
      PushAndSortByKeyEmptyFirst(front);
      InsertByKeyKeepsEmptyFirst(PushAndSortByKey(front), pushed[|pushed| - 1]);
    }
  }

  /** The subsets in counter order, as the outer loop pushes them (unsorted, in array order). */
  function Subsets(elements: seq<string>, count: nat): (r: seq<seq<string>>)
    ensures |r| == count
  {
    if count == 0 then []
    else Subsets(elements, count - 1) + [Chosen(elements, count - 1, |elements|)]
  }

  /** The subset pushed at counter value `k`. */
  lemma {:induction false} SubsetsAt(elements: seq<string>, count: nat, k: nat)
    requires k < count
    ensures Subsets(elements, count)[k] == Chosen(elements, k, |elements|)
  {
    var front := Subsets(elements, count - 1);
    var last := Chosen(elements, count - 1, |elements|);
    assert Subsets(elements, count) == front + [last];
    if k < count - 1 {
      SubsetsAt(elements, count - 1, k);
      assert (front + [last])[k] == front[k];
    }
  }

  /**
   * The order `generatePowerSet(array)` produces in this copy: one subset per counter value,
   * elements in array order, the list kept stably sorted by the comma-joined key.
   */
  function PowerSetOrder(names: seq<string>): seq<seq<string>> {
    PushAndSortByKey(Subsets(names, Pow2(|names|)))
  }

  /** `2^n` subsets, sorted by their keys. */
  lemma PowerSetOrderSize(names: seq<string>)
    ensures |PowerSetOrder(names)| == Pow2(|names|)
    ensures SortedByKey(PowerSetOrder(names))
  {
    PushAndSortByKeySorted(Subsets(names, Pow2(|names|)));
  }

  /** Each subset of the power set is the selection of the names, in array order, by some counter value. */
  lemma PowerSetOrderMembers(names: seq<string>, s: seq<string>)
    requires s in PowerSetOrder(names)
    ensures exists i :: 0 <= i < Pow2(|names|) && s == Chosen(names, i, |names|)
  {
    var subsets := Subsets(names, Pow2(|names|));
    PushAndSortByKeyMembers(subsets, s);
    var i :| 0 <= i < |subsets| && subsets[i] == s;
    SubsetsAt(names, Pow2(|names|), i);
  }

  /** Each subset takes a name at most as often as the input has it. */
  lemma PowerSetOrderDrawsOnNames(names: seq<string>, s: seq<string>)
    requires s in PowerSetOrder(names)
    ensures multiset(s) <= multiset(names)
  {
    PowerSetOrderMembers(names, s);
    var i :| 0 <= i < Pow2(|names|) && s == Chosen(names, i, |names|);
    ChosenSubMultiset(names, i, |names|);
    assert names[..|names|] == names;
  }

  /** The power set starts with the empty subset. */
  lemma PowerSetOrderStartsEmpty(names: seq<string>)
    ensures |PowerSetOrder(names)| > 0 && PowerSetOrder(names)[0] == []
  {
    var subsets := Subsets(names, Pow2(|names|));
    ChosenByZero(names, |names|);
    SubsetsAt(names, Pow2(|names|), 0);
    PushAndSortByKeyEmptyFirst(subsets);
  }

  /** The subset holding every name, in array order, is in the power set. */
  lemma PowerSetOrderHasFull(names: seq<string>)
    ensures names in PowerSetOrder(names)
  {
    var n := |names|;
    var subsets := Subsets(names, Pow2(n));
    var mask: nat := Pow2(n) - 1;
    ChosenAll(names, mask);
    SubsetsAt(names, Pow2(n), mask);
    PushAndSortByKeyMembers(subsets, names);
  }

  /** One turn of the outer loop pushes the subset for counter `i` and re-sorts. */
  lemma {:induction false} PushStep(names: seq<string>, i: nat)
    ensures PushAndSortByKey(Subsets(names, i + 1))
      == InsertByKey(PushAndSortByKey(Subsets(names, i)), Chosen(names, i, |names|))
  {
    var pushed := Subsets(names, i + 1);
    assert pushed[..i] == Subsets(names, i);
  }

  /** `generatePowerSet(array)`: nested counter loops, pushing and re-sorting. */
  method GeneratePowerSet(names: seq<string>) returns (powerset: seq<seq<string>>)
    requires |names| <= MaxElements
    ensures powerset == PowerSetOrder(names)
  {
    var total := Pow2(|names|);
    powerset := [];
    var i := 0;
    while i < total
      invariant 0 <= i <= total
      invariant powerset == PushAndSortByKey(Subsets(names, i))
    {
      var subset := SelectSubset(names, i);
      PushStep(names, i);
      powerset := InsertByKey(powerset, subset);
      assert powerset == PushAndSortByKey(Subsets(names, i + 1));
      i := i + 1;
    }
  }

  // ---------------------------------------------------------------- results list

  /** The query left after deleting the global identifiers and, when it has an entry, the platform's. */
  function ScrubbedQuery(reg: seq<Entry>, urlObj: UrlRecord, platform: Option<PlatformInfo>): seq<Param>
    requires WellFormed(reg)
  {
    Without(urlObj.query, GlobalIds(reg) + PlatformIds(reg, platform))
  }

  /** The counter loops of `generatePowerSet` are exact only for at most 32 remaining names. */
  predicate PowerSetFits(lib: UrlLibrary, reg: seq<Entry>, url: string)
    requires WellFormed(reg)
  {
    lib.parse(NormalizeUrl(url)).Some? ==>
      |ScrubbedQuery(reg, lib.parse(NormalizeUrl(url)).value, IdentifyPlatform(lib, reg, NormalizeUrl(url)))| <= MaxElements
  }

  /**
   * The candidate for one subset of names: the parsed URL with only those names, each with
   * its first non-empty value in the scrubbed query; high confidence exactly when a platform
   * was identified, and the analysis of the candidate's own serialisation.
   */
  function Candidate(lib: UrlLibrary, reg: seq<Entry>, urlObj: UrlRecord, scrubbedQuery: seq<Param>,
                     platform: Option<PlatformInfo>, combination: seq<string>): CleanUrlResult
    requires WellFormed(reg)
  {
    var combinationUrl := lib.serialize(urlObj.(query := CombinationQuery(scrubbedQuery, combination)));
    CleanUrlResult(combinationUrl, platform, ConfidenceOf(platform), Analysis(lib, reg, combinationUrl, platform))
  }

  /** One candidate per subset of the scrubbed names, in `generatePowerSet` order. */
  function CandidateList(lib: UrlLibrary, reg: seq<Entry>, urlObj: UrlRecord, platform: Option<PlatformInfo>)
    : seq<CleanUrlResult>
    requires WellFormed(reg)
  {
    var scrubbedQuery := ScrubbedQuery(reg, urlObj, platform);
    var combinations := PowerSetOrder(Keys(scrubbedQuery));
    seq(|combinations|, i requires 0 <= i < |combinations| =>
      Candidate(lib, reg, urlObj, scrubbedQuery, platform, combinations[i]))
  }

  /**
   * What `generateResultsList(url)` returns: the candidate list for the parsed normalised
   * input and its platform; `None` where `new URL(normalized)` throws, which this function
   * does not catch.
   */
  function ResultsList(lib: UrlLibrary, reg: seq<Entry>, url: string): (r: Option<seq<CleanUrlResult>>)
    requires WellFormed(reg)
    ensures r.None? <==> lib.parse(NormalizeUrl(url)).None?
  {
    var normalized := NormalizeUrl(url);
    match lib.parse(normalized)
    case None => None
    case Some(urlObj) => Some(CandidateList(lib, reg, urlObj, IdentifyPlatform(lib, reg, normalized)))
  }

  /**
   * There are `2^n` candidates for the `n` pairs left after deleting the identifiers; each
   * carries the platform, has high confidence exactly when there is one, and is `urlObj`
   * with a clean query: pairs of the original query, no identifier, no empty value, no name
   * twice.
   */
  lemma CandidatesAreClean(lib: UrlLibrary, reg: seq<Entry>, urlObj: UrlRecord, platform: Option<PlatformInfo>, i: nat)
    requires WellFormed(reg)
    ensures var r := CandidateList(lib, reg, urlObj, platform);
      && |r| == Pow2(|ScrubbedQuery(reg, urlObj, platform)|)
      && (i < |r| ==>
        && r[i].platform == platform
        && (r[i].confidence == High <==> platform.Some?)
        && exists q :: r[i].url == lib.serialize(urlObj.(query := q))
                       && CleanQuery(urlObj.query, GlobalIds(reg) + PlatformIds(reg, platform), q))
    ensures var r := CandidateList(lib, reg, urlObj, platform);
      var scrubbedQuery := ScrubbedQuery(reg, urlObj, platform);
      i < |r| ==>
        r[i].url == lib.serialize(urlObj.(query := CombinationQuery(scrubbedQuery, PowerSetOrder(Keys(scrubbedQuery))[i])))
  {
    var scrubbedQuery := ScrubbedQuery(reg, urlObj, platform);
    var combinations := PowerSetOrder(Keys(scrubbedQuery));
    PowerSetOrderSize(Keys(scrubbedQuery));
    if i < |combinations| {
      CombinationQueryIsClean(urlObj.query, GlobalIds(reg) + PlatformIds(reg, platform), combinations[i]);
    }
  }

  /** The first candidate is the parsed URL with no query at all. */
  lemma FirstCandidateIsBare(lib: UrlLibrary, reg: seq<Entry>, urlObj: UrlRecord, platform: Option<PlatformInfo>)
    requires WellFormed(reg)
    ensures var r := CandidateList(lib, reg, urlObj, platform);
      |r| > 0 && r[0].url == lib.serialize(urlObj.(query := []))
  {
    PowerSetOrderStartsEmpty(Keys(ScrubbedQuery(reg, urlObj, platform)));
  }

  /** The query holds exactly the names that have a non-empty value in `source`. */
  ghost predicate KeepsAllValued(q: seq<Param>, source: seq<Param>) {
    forall name :: name in Names(q) <==> HasNonEmptyValue(source, name)
  }

  /** Some candidate keeps every remaining name that has a non-empty value, and no other. */
  lemma SomeCandidateKeepsAll(lib: UrlLibrary, reg: seq<Entry>, urlObj: UrlRecord, platform: Option<PlatformInfo>)
    requires WellFormed(reg)
    ensures var r := CandidateList(lib, reg, urlObj, platform);
      exists i, q :: 0 <= i < |r| && r[i].url == lib.serialize(urlObj.(query := q))
        && KeepsAllValued(q, ScrubbedQuery(reg, urlObj, platform))
  {
    var scrubbedQuery := ScrubbedQuery(reg, urlObj, platform);
    var names := Keys(scrubbedQuery);
    var combinations := PowerSetOrder(names);
    PowerSetOrderHasFull(names);
    var i :| 0 <= i < |combinations| && combinations[i] == names;
    var q := CombinationQuery(scrubbedQuery, names);
    forall name ensures name in Names(q) <==> HasNonEmptyValue(scrubbedQuery, name) {
      FullCombinationKeeps(scrubbedQuery, names, name);
    }
    assert KeepsAllValued(q, scrubbedQuery);
    var r := CandidateList(lib, reg, urlObj, platform);
    assert r[i] == Candidate(lib, reg, urlObj, scrubbedQuery, platform, names);
    assert r[i].url == lib.serialize(urlObj.(query := q));
  }

  /**
   * The `forEach` over the combinations: one candidate per subset, in order, each built from
   * a fresh copy of the parsed URL with its query cleared.
   */
  method PushCandidates(lib: UrlLibrary, reg: seq<Entry>, urlObj: UrlRecord, scrubbedQuery: seq<Param>,
                        platform: Option<PlatformInfo>, combinations: seq<seq<string>>)
    returns (results: seq<CleanUrlResult>)
    requires WellFormed(reg)
    ensures |results| == |combinations|
    ensures forall i :: 0 <= i < |results| ==>
      results[i] == Candidate(lib, reg, urlObj, scrubbedQuery, platform, combinations[i])
  {
    results := [];
    var k := 0;
    while k < |combinations|
      invariant 0 <= k <= |combinations|
      invariant |results| == k
      invariant forall i :: 0 <= i < k ==>
        results[i] == Candidate(lib, reg, urlObj, scrubbedQuery, platform, combinations[i])
    {
      var candidate := BuildCandidate(lib, reg, urlObj, scrubbedQuery, platform, combinations[k]);
      results := results + [candidate];
      k := k + 1;
    }
  }

  /** One turn of the `forEach`: a fresh copy of the parsed URL with only the subset's names. */
  method BuildCandidate(lib: UrlLibrary, reg: seq<Entry>, urlObj: UrlRecord, scrubbedQuery: seq<Param>,
                        platform: Option<PlatformInfo>, combination: seq<string>)
    returns (candidate: CleanUrlResult)
    requires WellFormed(reg)
    ensures candidate == Candidate(lib, reg, urlObj, scrubbedQuery, platform, combination)
  {
    var combinationQuery := BuildCombinationQuery(scrubbedQuery, combination);
    var combinationUrl := urlObj.(query := combinationQuery);
    var serialized := lib.serialize(combinationUrl);
    var queryParams := AnalyzeQueryParams(lib, reg, serialized, platform);
    candidate := CleanUrlResult(serialized, platform, ConfidenceOf(platform), queryParams);
  }

  /** `generateResultsList(url)`; `None` where `new URL(normalized)` throws. */
  method GenerateResultsList(lib: UrlLibrary, reg: seq<Entry>, url: string) returns (results: Option<seq<CleanUrlResult>>)
    requires WellFormed(reg) && PowerSetFits(lib, reg, url)
    ensures results == ResultsList(lib, reg, url)
  {
    var normalized := NormalizeUrl(url);
    var parsed := lib.parse(normalized);
    if parsed.None? {
      return None;
    }
    var urlObj := parsed.value;
    var platform := FindPlatform(lib, reg, normalized);
    var list := ScrubAndCombine(lib, reg, urlObj, platform);
    return Some(list);
  }

  /**
   * The body of `generateResultsList` after parsing: delete the identifiers, take the
   * remaining names, build their power set and one candidate per subset.
   */
  method ScrubAndCombine(lib: UrlLibrary, reg: seq<Entry>, urlObj: UrlRecord, platform: Option<PlatformInfo>)
    returns (results: seq<CleanUrlResult>)
    requires WellFormed(reg) && |ScrubbedQuery(reg, urlObj, platform)| <= MaxElements
    ensures results == CandidateList(lib, reg, urlObj, platform)
  {
    var platformIdentifiers: seq<string> := [];
    if platform.Some? {
      var platformConfig := Lookup(reg, platform.value.name);
      if platformConfig.Some? {
        platformIdentifiers := platformConfig.value.sourceIdentifiers;
      }
    }
    assert platformIdentifiers == PlatformIds(reg, platform);
    var query := DeleteIdentifiers(urlObj.query, GlobalIds(reg), platformIdentifiers);
    assert query == ScrubbedQuery(reg, urlObj, platform);
    var searchParamsKeys := Keys(query);
    var combinations := GeneratePowerSet(searchParamsKeys);
    results := PushCandidates(lib, reg, urlObj, query, platform, combinations);
    assert |results| == |CandidateList(lib, reg, urlObj, platform)|;
  }

}
