/**
 * The cleaning engine of the Next.js copy of hushhush
 * (`hushhush/src/app/utils/urlUtils.ts`): validation that throws a `ValidationError`,
 * platform identification, parameter analysis, and candidate generation that gives one
 * exact result for a known platform and the whole power set otherwise.
 */
module NextUrlUtils {
  import opened Options
  import opened Strings
  import opened SearchParams
  import opened Urls
  import opened Registry
  import opened UrlNormalizer
  import opened PowerSets
  import opened Combinations

  datatype Confidence = Exact | Approximate

  datatype PlatformInfo = PlatformInfo(name: string, slug: string, confidence: Confidence)

  datatype QueryParamInfo = QueryParamInfo(name: string, value: string, isActive: bool, isSourceIdentifier: bool)

  datatype CleanUrlResult = CleanUrlResult(
    url: string,
    platform: Option<PlatformInfo>,
    confidence: Confidence,
    queryParams: seq<QueryParamInfo>)

  /**
   * What a thrown `ValidationError` reports: a parse failure (whose message comes from the
   * URL library), a protocol outside the allow-list, or a pseudonymised Facebook identifier.
   */
  datatype ValidationError = InvalidUrl | UnsupportedProtocol(protocol: string) | PseudonymizedFacebookId

  function Message(e: ValidationError): string
    requires !e.InvalidUrl?
  {
    match e
    case UnsupportedProtocol(protocol) => UnsupportedProtocolMessage(protocol)
    case PseudonymizedFacebookId =>
      "Pseudonymized Facebook Identifier (PFBID) detected.\nThis link has tracking built-in which can not be removed!\nRead more: [TODO: Insert URL here]."
  }

  // ---------------------------------------------------------------- scheme repair

  /** `/^\/\//.test(url)`. */
  predicate IsProtocolRelativeUrl(url: string) {
    "//" <= url
  }

  /**
   * `appendUrlProtocol(url, protocol)`: the protocol, then `//`, then `url` without its own
   * leading `//` when it is a network-path reference.
   */
  function AppendUrlProtocol(url: string, protocol: string): (r: string)
    ensures protocol <= r && "//" <= r[|protocol|..]
    ensures |url| <= |r| && r[|r| - |url|..] == url
    ensures r == protocol + "//" + (if "//" <= url then url[2..] else url)
  {
    if IsProtocolRelativeUrl(url) then
      assert url == "//" + url[2..];
      protocol + url
    else protocol + "//" + url
  }

  /**
   * `isUrlMissingProtocol(url)`. The third test (protocol-relative after a scheme test that
   * passed) can never fire: the result is decided by emptiness and the scheme test alone.
   */
  predicate IsUrlMissingProtocol(url: string)
    ensures IsUrlMissingProtocol(url) <==> Trim(url) == [] || !HasScheme(Trim(url))
  {
    var trimmed := Trim(url);
    if |trimmed| == 0 then true
    else if !HasScheme(trimmed) then true
    else
      SchemeIsNotSlash(trimmed);
      IsProtocolRelativeUrl(trimmed)
  }

  /** Whatever the input, `appendUrlProtocol(input, "https:")` has a protocol. */
  lemma AppendedUrlHasProtocol(url: string)
    ensures !IsUrlMissingProtocol(AppendUrlProtocol(url, "https:"))
  {
    var r := AppendUrlProtocol(url, "https:");
    assert "https:" <= r;
    TrimKeepsPrefix(r, "https:");
    HttpsHasScheme(Trim(r));
  }

  // ---------------------------------------------------------------- PFBID detection

  const PfbidMarker: string := "facebook.com/share/p/"

  /** The pattern `facebook\.com\/share\/p\/[a-zA-Z0-9]+` matches at the start of `s`. */
  predicate PfbidAt(s: string) {
    PfbidMarker <= s && |s| > |PfbidMarker| && IsAsciiAlphanumeric(s[|PfbidMarker|])
  }

  /** The unanchored regular-expression test, scanning left to right. */
  predicate MentionsPfbid(s: string) {
    PfbidAt(s) || (|s| > 0 && MentionsPfbid(s[1..]))
  }

  /** The scan finds the pattern exactly when it occurs at some position. */
  lemma {:induction false} MentionsPfbidIff(s: string)
    ensures MentionsPfbid(s) <==> exists k :: 0 <= k <= |s| && PfbidAt(s[k..])
  {
    if PfbidAt(s) {
      assert s[0..] == s;
    } else if MentionsPfbid(s) {
      MentionsPfbidIff(s[1..]);
      var k :| 0 <= k <= |s[1..]| && PfbidAt(s[1..][k..]);
      assert s[1..][k..] == s[k + 1..];
    }
    if exists k :: 0 <= k <= |s| && PfbidAt(s[k..]) {
      var k :| 0 <= k <= |s| && PfbidAt(s[k..]);
      if k > 0 {
        assert s[1..][k - 1..] == s[k..];
        MentionsPfbidIff(s[1..]);
      }
    }
  }

  /** `hasPseudonymizedFacebookId(url)`: the test runs on the serialised URL. */
  predicate HasPseudonymizedFacebookId(lib: UrlLibrary, url: UrlRecord) {
    MentionsPfbid(lib.serialize(url))
  }

  // ---------------------------------------------------------------- validation

  /** The body of the `try` block of `validateUrl`: parse, check the protocol, check PFBID. */
  function ValidateOnce(lib: UrlLibrary, input: string): Result<string, ValidationError> {
    match lib.parse(input)
    case None => Err(InvalidUrl)
    case Some(u) =>
      if u.protocol !in AllowedProtocols then Err(UnsupportedProtocol(u.protocol))
      else if HasPseudonymizedFacebookId(lib, u) then Err(PseudonymizedFacebookId)
      else Ok(lib.serialize(u))
  }

  /** `candidate` parses to an http(s) URL whose serialisation `s` carries no PFBID. */
  ghost predicate Accepted(lib: UrlLibrary, candidate: string, s: string) {
    && lib.parse(candidate).Some?
    && lib.parse(candidate).value.protocol in AllowedProtocols
    && s == lib.serialize(lib.parse(candidate).value)
    && !(exists k :: 0 <= k <= |s| && PfbidAt(s[k..]))
  }

  /**
   * `validateUrl(input)`. On any failure of the first attempt it retries once with
   * `https:` prepended when the input lacks a protocol; the retried string always has one,
   * so the recursion stops there.
   */
  function ValidateUrl(lib: UrlLibrary, input: string): (r: Result<string, ValidationError>)
    ensures ValidateOnce(lib, input).Ok? ==> r == ValidateOnce(lib, input)
    ensures ValidateOnce(lib, input).Err? ==>
      r == if IsUrlMissingProtocol(input) then ValidateOnce(lib, AppendUrlProtocol(input, "https:"))
           else ValidateOnce(lib, input)
    ensures r.Ok? ==>
      Accepted(lib, input, r.value)
      || (IsUrlMissingProtocol(input) && Accepted(lib, AppendUrlProtocol(input, "https:"), r.value))
    decreases if IsUrlMissingProtocol(input) then 1 else 0
  {
    var attempt := ValidateOnce(lib, input);
    if attempt.Ok? then
      MentionsPfbidIff(attempt.value);
      attempt
    else if IsUrlMissingProtocol(input) then
      AppendedUrlHasProtocol(input);
      ValidateUrl(lib, AppendUrlProtocol(input, "https:"))
    else attempt
  }

  /** A URL that `validateUrl` returns never embeds a pseudonymised Facebook identifier. */
  lemma ValidatedUrlHasNoPfbid(lib: UrlLibrary, input: string)
    requires ValidateUrl(lib, input).Ok?
    ensures !MentionsPfbid(ValidateUrl(lib, input).value)
  {
    MentionsPfbidIff(ValidateUrl(lib, input).value);
  }

  // ---------------------------------------------------------------- platform

  /** `identifyPlatform` accepts a `URL` or a string it parses itself. */
  datatype UrlInput = Parsed(url: UrlRecord) | Text(text: string)

  function HostOf(lib: UrlLibrary, input: UrlInput): Option<string> {
    match input
    case Parsed(u) => Some(u.hostname)
    case Text(s) => if lib.parse(s).Some? then Some(lib.parse(s).value.hostname) else None
  }

  /**
   * `identifyPlatform`: the first platform entry, in registry order, one of whose domains
   * occurs in the lower-cased host; `undefined` when none does or the string does not parse.
   */
  function IdentifyPlatform(lib: UrlLibrary, reg: seq<Entry>, input: UrlInput): (r: Option<PlatformInfo>)
    ensures HostOf(lib, input).None? ==> r.None?
    ensures HostOf(lib, input).Some? ==>
      var host := ToLowerAscii(HostOf(lib, input).value);
      && (r.None? <==> forall k :: 0 <= k < |reg| ==> !Claims(reg, host, k))
      && (r.Some? ==> exists k :: Claims(reg, host, k) && (forall m :: 0 <= m < k ==> !Claims(reg, host, m))
                                  && r.value == PlatformInfo(reg[k].name, reg[k].slug, Exact))
  {
    match HostOf(lib, input)
    case None => None
    case Some(host) =>
      FirstMatchIsFirst(reg, ToLowerAscii(host));
      match FirstMatch(reg, ToLowerAscii(host))
      case None => None
      case Some(k) =>
        assert Claims(reg, ToLowerAscii(host), k);
        Some(PlatformInfo(reg[k].name, reg[k].slug, Exact))
  }

  /** `identifyPlatform` as the source runs it: take the host, then scan the registry entries. */
  method FindPlatform(lib: UrlLibrary, reg: seq<Entry>, input: UrlInput) returns (r: Option<PlatformInfo>)
    ensures r == IdentifyPlatform(lib, reg, input)
  {
    var host := HostOf(lib, input);
    if host.None? {
      return None;
    }
    var found := ScanForPlatform(reg, ToLowerAscii(host.value));
    if found.None? {
      return None;
    }
    var k := found.value;
    r := Some(PlatformInfo(reg[k].name, reg[k].slug, Exact));
  }

  /** The identifiers of the platform's own registry entry; none without a platform. */
  function PlatformIds(reg: seq<Entry>, platform: Option<PlatformInfo>): seq<string> {
    if platform.None? then []
    else match Lookup(reg, platform.value.slug)
      case None => []
      case Some(e) => e.sourceIdentifiers
  }

  // ---------------------------------------------------------------- analysis

  /** One record per pair, in order, marked as an identifier when its name is listed. */
  function Classify(q: seq<Param>, ids: seq<string>): (r: seq<QueryParamInfo>)
    ensures |r| == |q|
    ensures forall k :: 0 <= k < |q| ==>
      r[k] == QueryParamInfo(q[k].name, q[k].value, true, q[k].name in ids)
  {
    seq(|q|, k requires 0 <= k < |q| => QueryParamInfo(q[k].name, q[k].value, true, q[k].name in ids))
  }

  /**
   * What `analyzeQueryParams(url, platform)` returns: the classification against the global
   * identifiers followed by the platform's, or `[]` when the platform's entry is missing
   * (the lookup throws and the `catch` answers with an empty list).
   */
  function Analysis(reg: seq<Entry>, url: UrlRecord, platform: Option<PlatformInfo>): seq<QueryParamInfo>
    requires WellFormed(reg)
  {
    if platform.Some? && Lookup(reg, platform.value.slug).None? then []
    else Classify(url.query, GlobalIds(reg) + PlatformIds(reg, platform))
  }

  /** `analyzeQueryParams(url, platform)`: pushes one record per query pair. */
  method AnalyzeQueryParams(reg: seq<Entry>, url: UrlRecord, platform: Option<PlatformInfo>)
    returns (queryParams: seq<QueryParamInfo>)
    requires WellFormed(reg)
    ensures queryParams == Analysis(reg, url, platform)
    ensures platform.Some? && Lookup(reg, platform.value.slug).None? ==> queryParams == []
    ensures platform.None? || Lookup(reg, platform.value.slug).Some? ==>
      |queryParams| == |url.query|
      && forall k :: 0 <= k < |url.query| ==>
        && queryParams[k].name == url.query[k].name
        && queryParams[k].value == url.query[k].value
        && queryParams[k].isActive
        && (queryParams[k].isSourceIdentifier <==>
              url.query[k].name in GlobalIds(reg) || url.query[k].name in PlatformIds(reg, platform))
  {
    if platform.Some? && Lookup(reg, platform.value.slug).None? {
      return [];
    }
    var ids := GlobalIds(reg) + PlatformIds(reg, platform);
    queryParams := [];
    var k := 0;
    while k < |url.query|
      invariant 0 <= k <= |url.query|
      invariant queryParams == Classify(url.query[..k], ids)
    {
      var p := url.query[k];
      queryParams := queryParams + [QueryParamInfo(p.name, p.value, true, p.name in ids)];
      k := k + 1;
    }
    assert url.query[..k] == url.query;
  }

  /** The pairs of the records not marked as source identifiers. */
  function KeptPairs(infos: seq<QueryParamInfo>): seq<Param> {
    if infos == [] then []
    else (if infos[0].isSourceIdentifier then [] else [Param(infos[0].name, infos[0].value)]) + KeptPairs(infos[1..])
  }

  /**
   * The analysis and the scrubbing agree: the parameters not marked as identifiers are
   * exactly those that removing the identifiers keeps, in the same order.
   */
  lemma {:induction false} KeptPairsOfClassify(q: seq<Param>, ids: seq<string>)
    ensures KeptPairs(Classify(q, ids)) == Without(q, ids)
  {
    if q != [] {
      assert Classify(q, ids)[1..] == Classify(q[1..], ids);
      KeptPairsOfClassify(q[1..], ids);
    }
  }

  // ---------------------------------------------------------------- power set

  /** Sizes never increase along the list. */
  ghost predicate SortedBySize(list: seq<seq<string>>) {
    forall i, j :: 0 <= i < j < |list| ==> |list[i]| >= |list[j]|
  }

  /**
   * `powerset.sort((a, b) => b.length - a.length)` right after pushing `x` onto a list that
   * is already sorted that way: the sort is stable, so `x` lands after every subset at least
   * as large and before the first smaller one.
   */
  function InsertBySize(list: seq<seq<string>>, x: seq<string>): (r: seq<seq<string>>)
    ensures |r| == |list| + 1
  {
    if list == [] || |list[0]| < |x| then [x] + list
    else [list[0]] + InsertBySize(list[1..], x)
  }

  /** Where `InsertBySize` puts the new subset: before the first strictly smaller one. */
  function InsertPosition(list: seq<seq<string>>, x: seq<string>): (p: nat)
    ensures p <= |list|
    ensures forall k :: 0 <= k < p ==> |list[k]| >= |x|
    ensures p < |list| ==> |list[p]| < |x|
  {
    if list == [] || |list[0]| < |x| then 0 else 1 + InsertPosition(list[1..], x)
  }

  /**
   * The insertion is stable: `x` goes right before the first element smaller than it, and the
   * list's own order is kept on both sides.
   */
  lemma {:induction false} InsertBySizeStable(list: seq<seq<string>>, x: seq<string>)
    ensures var p := InsertPosition(list, x); InsertBySize(list, x) == list[..p] + [x] + list[p..]
  {
    if list != [] && |list[0]| >= |x| {
      var tail := list[1..];
      InsertBySizeStable(tail, x);
      var p := InsertPosition(tail, x);
      assert list[..p + 1] == [list[0]] + tail[..p];
      assert list[p + 1..] == tail[p..];
    } else {
      assert list[..0] == [] && list[0..] == list;
    }
  }

  /** Element `k` of the list after the insertion. */
  lemma InsertBySizeAt(list: seq<seq<string>>, x: seq<string>, k: nat)
    requires k <= |list|
    ensures var p := InsertPosition(list, x);
      InsertBySize(list, x)[k] == if k < p then list[k] else if k == p then x else list[k - 1]
  {
    InsertBySizeStable(list, x);
  }

  /** Inserting into a list sorted by decreasing size keeps it sorted. */
  lemma InsertBySizeSorted(list: seq<seq<string>>, x: seq<string>)
    requires SortedBySize(list)
    ensures SortedBySize(InsertBySize(list, x))
  {
    var p := InsertPosition(list, x);
    var r := InsertBySize(list, x);
    forall i, j | 0 <= i < j < |r| ensures |r[i]| >= |r[j]| {
      InsertBySizeAt(list, x, i);
      InsertBySizeAt(list, x, j);
      if i == p {
        assert |x| > |list[p]|;
      }
    }
  }

  /** Inserting adds exactly the new subset: the result is a permutation of the list and `x`. */
  lemma InsertBySizePermutes(list: seq<seq<string>>, x: seq<string>)
    ensures multiset(InsertBySize(list, x)) == multiset(list) + multiset{x}
  {
    InsertBySizeStable(list, x);
    SpliceMultiset(list, InsertPosition(list, x), x);
  }

  /** The list after pushing each element of `pushed` in turn and re-sorting after each push. */
  function PushAndSortBySize(pushed: seq<seq<string>>): (r: seq<seq<string>>)
    ensures |r| == |pushed|
  {
    if pushed == [] then []
    else InsertBySize(PushAndSortBySize(pushed[..|pushed| - 1]), pushed[|pushed| - 1])
  }

  /** However the subsets were pushed, the list comes out sorted by decreasing size. */
  lemma {:induction false} PushAndSortBySizeSorted(pushed: seq<seq<string>>)
    ensures SortedBySize(PushAndSortBySize(pushed))
  {
    if pushed != [] {
      PushAndSortBySizeSorted(pushed[..|pushed| - 1]);
      InsertBySizeSorted(PushAndSortBySize(pushed[..|pushed| - 1]), pushed[|pushed| - 1]);
    }
  }

  /** Pushing and re-sorting loses and invents nothing: the list is a permutation of what was pushed. */
  lemma {:induction false} PushAndSortBySizePermutes(pushed: seq<seq<string>>)
    ensures multiset(PushAndSortBySize(pushed)) == multiset(pushed)
  {
    if pushed != [] {
      var front := pushed[..|pushed| - 1];
      var last := pushed[|pushed| - 1];
      PushAndSortBySizePermutes(front);
      InsertBySizePermutes(PushAndSortBySize(front), last);
      assert pushed == front + [last];
      assert multiset(pushed) == multiset(front) + multiset{last};
    }
  }

  /** A subset is in the sorted list exactly when it was pushed. */
  lemma PushAndSortBySizeMembers(pushed: seq<seq<string>>, s: seq<string>)
    ensures s in PushAndSortBySize(pushed) <==> s in pushed
  {
    PushAndSortBySizePermutes(pushed);
    assert s in PushAndSortBySize(pushed) <==> s in multiset(PushAndSortBySize(pushed));
    assert s in pushed <==> s in multiset(pushed);
  }

  /** The pushed subsets of size `n`, in the order they were pushed. */
  function OfSize(pushed: seq<seq<string>>, n: nat): seq<seq<string>> {
    if pushed == [] then []
    else
      var last := pushed[|pushed| - 1];
      OfSize(pushed[..|pushed| - 1], n) + (if |last| == n then [last] else [])
  }

  /** `OfSize` keeps exactly the pushed subsets of size `n`. */
  lemma {:induction false} OfSizeMembers(pushed: seq<seq<string>>, n: nat, s: seq<string>)
    ensures s in OfSize(pushed, n) <==> s in pushed && |s| == n
  {
    if pushed != [] {
      var front := pushed[..|pushed| - 1];
      assert pushed == front + [pushed[|pushed| - 1]];
      OfSizeMembers(front, n, s);
    }
  }

  /** One more push adds the subset at the end of its own group and nowhere else. */
  lemma OfSizePush(pushed: seq<seq<string>>, x: seq<string>, n: nat)
    ensures |x| == n ==> OfSize(pushed + [x], n) == OfSize(pushed, n) + [x]
    ensures |x| != n ==> OfSize(pushed + [x], n) == OfSize(pushed, n)
  {
    assert (pushed + [x])[..|pushed|] == pushed;
    assert OfSize(pushed, n) + [] == OfSize(pushed, n);
  }

  /**
   * The pushed subsets grouped by size, from size `n` down to size 0, each group in the order
   * its subsets were pushed.
   */
  function BySizeFrom(pushed: seq<seq<string>>, n: nat): seq<seq<string>> {
    OfSize(pushed, n) + (if n == 0 then [] else BySizeFrom(pushed, n - 1))
  }

  /** The groups from size `n` down hold no subset larger than `n`. */
  lemma {:induction false} BySizeFromBound(pushed: seq<seq<string>>, n: nat, s: seq<string>)
    requires s in BySizeFrom(pushed, n)
    ensures |s| <= n
  {
    OfSizeMembers(pushed, n, s);
    if s !in OfSize(pushed, n) {
      BySizeFromBound(pushed, n - 1, s);
    }
  }

  /** Nothing pushed, nothing in any group. */
  lemma {:induction false} BySizeFromEmpty(n: nat)
    ensures BySizeFrom([], n) == []
  {
    if n > 0 {
      BySizeFromEmpty(n - 1);
    }
  }

  /** Pushing a subset larger than `n` leaves the groups of size `n` and below as they were. */
  lemma {:induction false} BySizeFromPushLarger(pushed: seq<seq<string>>, x: seq<string>, n: nat)
    requires n < |x|
    ensures BySizeFrom(pushed + [x], n) == BySizeFrom(pushed, n)
  {
    OfSizePush(pushed, x, n);
    if n > 0 {
      BySizeFromPushLarger(pushed, x, n - 1);
    }
  }

  /** The insertion walks past a prefix whose subsets are all at least as large as `x`. */
  lemma {:induction false} InsertBySizePast(front: seq<seq<string>>, back: seq<seq<string>>, x: seq<string>)
    requires forall s :: s in front ==> |s| >= |x|
    ensures InsertBySize(front + back, x) == front + InsertBySize(back, x)
  {
    if front != [] {
      var list := front + back;
      assert front[0] in front;
      assert list[0] == front[0];
      assert list[1..] == front[1..] + back;
      InsertBySizePast(front[1..], back, x);
      assert InsertBySize(list, x) == [front[0]] + (front[1..] + InsertBySize(back, x));
      assert front == [front[0]] + front[1..];
    } else {
      assert front + back == back;
    }
  }

  /** Concatenation is associative. */
  lemma AppendAssoc<T>(a: seq<T>, b: seq<T>, c: seq<T>)
    ensures a + (b + c) == a + b + c
  {
  }

  /** A subset of size exactly `n` goes after the other subsets of size `n`. */
  lemma InsertBySizeEndsGroup(pushed: seq<seq<string>>, x: seq<string>, n: nat)
    requires |x| == n
    ensures InsertBySize(BySizeFrom(pushed, n), x) == BySizeFrom(pushed + [x], n)
  {
    var group := OfSize(pushed, n);
    var below := if n == 0 then [] else BySizeFrom(pushed, n - 1);
    forall s | s in group ensures |s| >= |x| {
      OfSizeMembers(pushed, n, s);
    }
    InsertBySizePast(group, below, x);
    OfSizePush(pushed, x, n);
    if n > 0 {
      BySizeFromPushLarger(pushed, x, n - 1);
      if below != [] {
        BySizeFromBound(pushed, n - 1, below[0]);
      }
    }
    assert InsertBySize(below, x) == [x] + below;
    AppendAssoc(group, [x], below);
  }

  /** Inserting `x` into the groups puts it last in the group of its own size. */
  lemma {:induction false} InsertBySizeIntoGroups(pushed: seq<seq<string>>, x: seq<string>, n: nat)
    requires |x| <= n
    ensures InsertBySize(BySizeFrom(pushed, n), x) == BySizeFrom(pushed + [x], n)
  {
    if |x| == n {
      InsertBySizeEndsGroup(pushed, x, n);
    } else {
      var group := OfSize(pushed, n);
      forall s | s in group ensures |s| >= |x| {
        OfSizeMembers(pushed, n, s);
      }
      InsertBySizePast(group, BySizeFrom(pushed, n - 1), x);
      OfSizePush(pushed, x, n);
      InsertBySizeIntoGroups(pushed, x, n - 1);
    }
  }

  /**
   * Re-sorting stably after every push orders the subsets by decreasing size and, among subsets
   * of the same size, in the order they were pushed.
   */
  lemma {:induction false} PushAndSortBySizeGroups(pushed: seq<seq<string>>, n: nat)
    requires forall s :: s in pushed ==> |s| <= n
    ensures PushAndSortBySize(pushed) == BySizeFrom(pushed, n)
  {
    if pushed == [] {
      BySizeFromEmpty(n);
    } else {
      var front, last := pushed[..|pushed| - 1], pushed[|pushed| - 1];
      assert pushed == front + [last];
      assert last in pushed;
      PushAndSortBySizeGroups(front, n);
      InsertBySizeIntoGroups(front, last, n);
    }
  }

  /** In a list sorted by decreasing size that holds the empty subset, the last one is empty. */
  lemma LastOfSortedBySize(list: seq<seq<string>>)
    requires SortedBySize(list) && [] in list
    ensures list[|list| - 1] == []
  {
    var e :| 0 <= e < |list| && list[e] == [];
    assert |list[|list| - 1]| <= |list[e]|;
  }

  /** The subsets in counter order, each sorted: what the outer loop pushes. */
  function SortedSubsets(elements: seq<string>, count: nat): (r: seq<seq<string>>)
    ensures |r| == count
  {
    if count == 0 then []
    else SortedSubsets(elements, count - 1) + [SortStrings(Chosen(elements, count - 1, |elements|))]
  }

  /** The subset pushed at counter value `k`. */
  lemma {:induction false} SortedSubsetsAt(elements: seq<string>, count: nat, k: nat)
    requires k < count
    ensures SortedSubsets(elements, count)[k] == SortStrings(Chosen(elements, k, |elements|))
  {
    var front := SortedSubsets(elements, count - 1);
    var last := SortStrings(Chosen(elements, count - 1, |elements|));
    assert SortedSubsets(elements, count) == front + [last];
    if k < count - 1 {
      SortedSubsetsAt(elements, count - 1, k);
      assert (front + [last])[k] == front[k];
    }
  }

  /** Every pushed subset is sorted and draws only on the elements. */
  lemma SortedSubsetsMembers(elements: seq<string>, count: nat, s: seq<string>)
    requires s in SortedSubsets(elements, count)
    ensures SortedStrings(s) && multiset(s) <= multiset(elements)
  {
    var k :| 0 <= k < count && SortedSubsets(elements, count)[k] == s;
    SortedSubsetsAt(elements, count, k);
    ChosenSubMultiset(elements, k, |elements|);
    assert elements[..|elements|] == elements;
  }

  /** The names the counter loops draw on: `[...names].sort().reverse()`. */
  function PowerSetElements(names: seq<string>): (r: seq<string>)
    ensures |r| == |names| && multiset(r) == multiset(names)
  {
    Reverse(SortStrings(names))
  }

  /**
   * The order `generatePowerSet(names)` produces: the names sorted and reversed, one subset
   * per counter value, each subset sorted, the list kept stably sorted by decreasing size.
   */
  function PowerSetOrder(names: seq<string>): seq<seq<string>> {
    var elements := PowerSetElements(names);
    PushAndSortBySize(SortedSubsets(elements, Pow2(|elements|)))
  }

  /** `2^n` subsets, sorted by decreasing size. */
  lemma PowerSetOrderSize(names: seq<string>)
    ensures |PowerSetOrder(names)| == Pow2(|names|)
    ensures SortedBySize(PowerSetOrder(names))
  {
    var elements := PowerSetElements(names);
    PushAndSortBySizeSorted(SortedSubsets(elements, Pow2(|elements|)));
  }

  /** Each subset of the power set is sorted and takes a name at most as often as `names`. */
  lemma PowerSetOrderMembers(names: seq<string>, s: seq<string>)
    requires s in PowerSetOrder(names)
    ensures SortedStrings(s) && multiset(s) <= multiset(names)
  {
    var elements := PowerSetElements(names);
    var subsets := SortedSubsets(elements, Pow2(|elements|));
    PushAndSortBySizeMembers(subsets, s);
    SortedSubsetsMembers(elements, Pow2(|elements|), s);
  }

  /**
   * The power set lists the subsets by decreasing size, and the subsets of one size in the
   * order of the counter that produced them.
   */
  lemma PowerSetOrderGroups(names: seq<string>)
    ensures var elements := PowerSetElements(names);
      PowerSetOrder(names) == BySizeFrom(SortedSubsets(elements, Pow2(|elements|)), |names|)
  {
    var elements := PowerSetElements(names);
    var subsets := SortedSubsets(elements, Pow2(|elements|));
    forall s | s in subsets ensures |s| <= |names| {
      var k :| 0 <= k < |subsets| && subsets[k] == s;
      SortedSubsetsAt(elements, Pow2(|elements|), k);
    }
    PushAndSortBySizeGroups(subsets, |names|);
  }

  /** The power set ends with the empty subset. */
  lemma PowerSetOrderEndsEmpty(names: seq<string>)
    ensures var r := PowerSetOrder(names); |r| == Pow2(|names|) && r[|r| - 1] == []
  {
    var elements := PowerSetElements(names);
    var subsets := SortedSubsets(elements, Pow2(|elements|));
    ChosenByZero(elements, |elements|);
    SortedSubsetsAt(elements, Pow2(|elements|), 0);
    assert subsets[0] == [];
    PushAndSortBySizeMembers(subsets, []);
    PowerSetOrderSize(names);
    LastOfSortedBySize(PowerSetOrder(names));
  }

  /** A counter value below `count` that selects every element pushes the sorted whole. */
  lemma SortedSubsetsHasWhole(elements: seq<string>, count: nat, k: nat)
    requires k < count
    requires Chosen(elements, k, |elements|) == elements
    ensures SortStrings(elements) in SortedSubsets(elements, count)
  {
    SortedSubsetsAt(elements, count, k);
  }

  /** The last counter value pushes every element. */
  lemma FullSubsetInSortedSubsets(elements: seq<string>)
    ensures SortStrings(elements) in SortedSubsets(elements, Pow2(|elements|))
  {
    var count := Pow2(|elements|);
    var mask: nat := count - 1;
    ChosenAll(elements, mask);
    SortedSubsetsHasWhole(elements, count, mask);
  }

  /** The subset holding every name is among those the loops push. */
  lemma FullSubsetPushed(names: seq<string>)
    ensures SortStrings(PowerSetElements(names)) in PowerSetOrder(names)
  {
    var elements := PowerSetElements(names);
    FullSubsetInSortedSubsets(elements);
    PushAndSortBySizeMembers(SortedSubsets(elements, Pow2(|elements|)), SortStrings(elements));
  }

  /** A sub-multiset as large as its super-multiset is equal to it. */
  lemma SubMultisetOfEqualSize(a: multiset<string>, b: multiset<string>)
    requires a <= b && |a| >= |b|
    ensures a == b
  {
    assert |b - a| == |b| - |a|;
  }

  /** The power set starts with a subset holding every name. */
  lemma PowerSetOrderStartsFull(names: seq<string>)
    ensures var r := PowerSetOrder(names); |r| > 0 && multiset(r[0]) == multiset(names)
  {
    var r := PowerSetOrder(names);
    var full := SortStrings(PowerSetElements(names));
    FullSubsetPushed(names);
    PowerSetOrderSize(names);
    var f :| 0 <= f < |r| && r[f] == full;
    assert |r[0]| >= |full| == |names|;
    PowerSetOrderMembers(names, r[0]);
    SubMultisetOfEqualSize(multiset(r[0]), multiset(names));
  }

  /** One turn of the outer loop pushes the subset for counter `i` and re-sorts. */
  lemma {:induction false} PushStep(elements: seq<string>, i: nat)
    ensures PushAndSortBySize(SortedSubsets(elements, i + 1))
      == InsertBySize(PushAndSortBySize(SortedSubsets(elements, i)), SortStrings(Chosen(elements, i, |elements|)))
  {
    var pushed := SortedSubsets(elements, i + 1);
    assert pushed[..i] == SortedSubsets(elements, i);
  }

  /** `generatePowerSet(names)`: nested counter loops, pushing and re-sorting. */
  method GeneratePowerSet(names: seq<string>) returns (powerset: seq<seq<string>>)
    requires |names| <= MaxElements
    ensures powerset == PowerSetOrder(names)
  {
    var elements := PowerSetElements(names);
    var total := Pow2(|elements|);
    powerset := [];
    var i := 0;
    while i < total
      invariant 0 <= i <= total
      invariant powerset == PushAndSortBySize(SortedSubsets(elements, i))
    {
      var subset := SelectSubset(elements, i);
      subset := SortStrings(subset);
      PushStep(elements, i);
      powerset := InsertBySize(powerset, subset);
      assert powerset == PushAndSortBySize(SortedSubsets(elements, i + 1));
      i := i + 1;
    }
  }

  // ---------------------------------------------------------------- results list

  /** The URL with every global identifier deleted (`scrubbedUrl` before platform detection). */
  function Scrubbed(reg: seq<Entry>, url: UrlRecord): (r: UrlRecord)
    requires WellFormed(reg)
  {
    url.(query := Without(url.query, GlobalIds(reg)))
  }

  /** `generatePowerSet` is only run, and only bounded, when no platform is identified. */
  predicate PowerSetFits(lib: UrlLibrary, reg: seq<Entry>, url: UrlRecord)
    requires WellFormed(reg)
  {
    IdentifyPlatform(lib, reg, Parsed(Scrubbed(reg, url))).None? ==> |Scrubbed(reg, url).query| <= MaxElements
  }

  /** The candidate for one subset of names: only those names, with their first non-empty values. */
  function Candidate(lib: UrlLibrary, scrubbed: UrlRecord, queryParams: seq<QueryParamInfo>, combination: seq<string>)
    : CleanUrlResult
  {
    CleanUrlResult(lib.serialize(scrubbed.(query := CombinationQuery(scrubbed.query, combination))),
                   None, Approximate, queryParams)
  }

  /** The one result for an identified platform: the platform's identifiers deleted too. */
  function ExactResult(lib: UrlLibrary, reg: seq<Entry>, url: UrlRecord, platform: Option<PlatformInfo>)
    : CleanUrlResult
    requires WellFormed(reg)
  {
    var scrubbed := Scrubbed(reg, url);
    CleanUrlResult(lib.serialize(scrubbed.(query := Without(scrubbed.query, PlatformIds(reg, platform)))),
                   platform, Exact, Analysis(reg, url, platform))
  }

  /** Without a platform: one candidate per subset of the scrubbed names, in `generatePowerSet` order. */
  function CandidateList(lib: UrlLibrary, reg: seq<Entry>, url: UrlRecord): seq<CleanUrlResult>
    requires WellFormed(reg)
  {
    var scrubbed := Scrubbed(reg, url);
    var subsets := PowerSetOrder(Keys(scrubbed.query));
    seq(|subsets|, i requires 0 <= i < |subsets| => Candidate(lib, scrubbed, Analysis(reg, url, None), subsets[i]))
  }

  /**
   * What `generateResultsList(url)` returns: for an identified platform, one exact result with
   * the global and the platform's identifiers deleted; otherwise one approximate candidate per
   * subset of the remaining names, in `generatePowerSet` order.
   */
  function ResultsList(lib: UrlLibrary, reg: seq<Entry>, url: UrlRecord): seq<CleanUrlResult>
    requires WellFormed(reg) && PowerSetFits(lib, reg, url)
  {
    var scrubbed := Scrubbed(reg, url);
    var platform := IdentifyPlatform(lib, reg, Parsed(scrubbed));
    if platform.Some? then [ExactResult(lib, reg, url, platform)] else CandidateList(lib, reg, url)
  }

  /** A platform `identifyPlatform` reports has an entry in the registry. */
  lemma IdentifiedPlatformIsRegistered(lib: UrlLibrary, reg: seq<Entry>, input: UrlInput)
    requires IdentifyPlatform(lib, reg, input).Some?
    ensures Lookup(reg, IdentifyPlatform(lib, reg, input).value.slug).Some?
  {
    var host := ToLowerAscii(HostOf(lib, input).value);
    var k :| Claims(reg, host, k) && IdentifyPlatform(lib, reg, input).value.slug == reg[k].slug;
    assert Slugs(reg)[k] == reg[k].slug;
  }

  /**
   * For an identified platform the list is one exact result: the URL with the global and the
   * platform's identifiers deleted, with an analysis whose unmarked parameters are exactly
   * the pairs that URL keeps.
   */
  lemma ExactResultOfPlatform(lib: UrlLibrary, reg: seq<Entry>, url: UrlRecord)
    requires WellFormed(reg) && PowerSetFits(lib, reg, url)
    requires IdentifyPlatform(lib, reg, Parsed(Scrubbed(reg, url))).Some?
    ensures var r := ResultsList(lib, reg, url);
      var platform := IdentifyPlatform(lib, reg, Parsed(Scrubbed(reg, url)));
      var cleaned := Without(url.query, GlobalIds(reg) + PlatformIds(reg, platform));
      && |r| == 1
      && r[0].platform == platform && r[0].confidence == Exact
      && r[0].url == lib.serialize(url.(query := cleaned))
      && |r[0].queryParams| == |url.query|
      && KeptPairs(r[0].queryParams) == cleaned
  {
    var platform := IdentifyPlatform(lib, reg, Parsed(Scrubbed(reg, url)));
    IdentifiedPlatformIsRegistered(lib, reg, Parsed(Scrubbed(reg, url)));
    WithoutWithout(url.query, GlobalIds(reg), PlatformIds(reg, platform));
    KeptPairsOfClassify(url.query, GlobalIds(reg) + PlatformIds(reg, platform));
  }

  /**
   * Without a platform there are `2^n` candidates for the `n` pairs left after scrubbing, all
   * approximate and without a platform, each the URL with a clean query and each carrying
   * the analysis of the original URL against the global identifiers.
   */
  lemma ApproximateResults(lib: UrlLibrary, reg: seq<Entry>, url: UrlRecord, i: nat)
    requires WellFormed(reg) && PowerSetFits(lib, reg, url)
    requires IdentifyPlatform(lib, reg, Parsed(Scrubbed(reg, url))).None?
    ensures |ResultsList(lib, reg, url)| == Pow2(|Scrubbed(reg, url).query|)
    ensures i < |ResultsList(lib, reg, url)| ==>
      var r := ResultsList(lib, reg, url)[i];
      && r.platform.None? && r.confidence == Approximate
      && r.queryParams == Classify(url.query, GlobalIds(reg))
      && exists q :: r.url == lib.serialize(url.(query := q)) && CleanQuery(url.query, GlobalIds(reg), q)
    ensures i < |ResultsList(lib, reg, url)| ==>
      var scrubbed := Scrubbed(reg, url);
      ResultsList(lib, reg, url)[i].url
        == lib.serialize(url.(query := CombinationQuery(scrubbed.query, PowerSetOrder(Keys(scrubbed.query))[i])))
  {
    var scrubbed := Scrubbed(reg, url);
    var subsets := PowerSetOrder(Keys(scrubbed.query));
    PowerSetOrderSize(Keys(scrubbed.query));
    if i < |subsets| {
      var q := CombinationQuery(scrubbed.query, subsets[i]);
      CombinationQueryIsClean(url.query, GlobalIds(reg), subsets[i]);
      assert scrubbed.(query := q) == url.(query := q);
    }
  }

  /** The first candidate keeps every parameter left after scrubbing that has a non-empty value. */
  lemma FirstCandidateKeepsAll(lib: UrlLibrary, reg: seq<Entry>, url: UrlRecord)
    requires WellFormed(reg) && PowerSetFits(lib, reg, url)
    requires IdentifyPlatform(lib, reg, Parsed(Scrubbed(reg, url))).None?
    ensures var r := ResultsList(lib, reg, url);
      && |r| > 0
      && exists q :: r[0].url == lib.serialize(url.(query := q))
           && forall name :: name in Names(q) <==> HasNonEmptyValue(Scrubbed(reg, url).query, name)
  {
    var scrubbed := Scrubbed(reg, url);
    var names := Keys(scrubbed.query);
    var subsets := PowerSetOrder(names);
    PowerSetOrderStartsFull(names);
    var q := CombinationQuery(scrubbed.query, subsets[0]);
    forall name ensures name in Names(q) <==> HasNonEmptyValue(scrubbed.query, name) {
      FullCombinationKeeps(scrubbed.query, subsets[0], name);
    }
    assert scrubbed.(query := q) == url.(query := q);
  }

  /** The last candidate keeps no parameter: it is the bare URL. */
  lemma LastCandidateIsBare(lib: UrlLibrary, reg: seq<Entry>, url: UrlRecord)
    requires WellFormed(reg) && PowerSetFits(lib, reg, url)
    requires IdentifyPlatform(lib, reg, Parsed(Scrubbed(reg, url))).None?
    ensures var r := ResultsList(lib, reg, url);
      |r| > 0 && r[|r| - 1].url == lib.serialize(url.(query := []))
  {
    var scrubbed := Scrubbed(reg, url);
    PowerSetOrderEndsEmpty(Keys(scrubbed.query));
    assert scrubbed.(query := []) == url.(query := []);
  }

  /**
   * The `forEach` over the power set: one candidate per subset, in order, each built from
   * the scrubbed query and carrying the analysis of the original URL.
   */
  method PushCandidates(lib: UrlLibrary, reg: seq<Entry>, url: UrlRecord, scrubbed: UrlRecord,
                        searchParamsPowerSet: seq<seq<string>>) returns (results: seq<CleanUrlResult>)
    requires WellFormed(reg)
    ensures |results| == |searchParamsPowerSet|
    ensures forall i :: 0 <= i < |results| ==>
      results[i] == Candidate(lib, scrubbed, Analysis(reg, url, None), searchParamsPowerSet[i])
  {
    results := [];
    var k := 0;
    while k < |searchParamsPowerSet|
      invariant 0 <= k <= |searchParamsPowerSet|
      invariant |results| == k
      invariant forall i :: 0 <= i < k ==> results[i] == Candidate(lib, scrubbed, Analysis(reg, url, None), searchParamsPowerSet[i])
    {
      var combination := searchParamsPowerSet[k];
      var combinationQuery := BuildCombinationQuery(scrubbed.query, combination);
      var queryParams := AnalyzeQueryParams(reg, url, None);
      results := results + [CleanUrlResult(lib.serialize(scrubbed.(query := combinationQuery)), None, Approximate, queryParams)];
      k := k + 1;
    }
  }

  /** The platform branch of `generateResultsList`: delete the platform's identifiers, analyse, serialise. */
  method BuildExactResult(lib: UrlLibrary, reg: seq<Entry>, url: UrlRecord, scrubbed: UrlRecord,
                          platform: Option<PlatformInfo>) returns (result: CleanUrlResult)
    requires WellFormed(reg) && scrubbed == Scrubbed(reg, url) && platform.Some?
    ensures result == ExactResult(lib, reg, url, platform)
  {
    var scrubbedQuery := scrubbed.query;
    match Lookup(reg, platform.value.slug) {
      case Some(platformConfig) =>
        scrubbedQuery := DeleteAll(scrubbedQuery, platformConfig.sourceIdentifiers);
      case None =>
        WithoutNothing(scrubbedQuery);
    }
    assert scrubbedQuery == Without(scrubbed.query, PlatformIds(reg, platform));
    var queryParams := AnalyzeQueryParams(reg, url, platform);
    result := CleanUrlResult(lib.serialize(scrubbed.(query := scrubbedQuery)), platform, Exact, queryParams);
  }

  /** `generateResultsList(url)`. */
  method GenerateResultsList(lib: UrlLibrary, reg: seq<Entry>, url: UrlRecord) returns (results: seq<CleanUrlResult>)
    requires WellFormed(reg) && PowerSetFits(lib, reg, url)
    ensures results == ResultsList(lib, reg, url)
  {
    results := [];
    var scrubbed := url;
    var scrubbedQuery := DeleteAll(scrubbed.query, GlobalIds(reg));
    scrubbed := scrubbed.(query := scrubbedQuery);
    assert scrubbed == Scrubbed(reg, url);
    var platform := FindPlatform(lib, reg, Parsed(scrubbed));
    if platform.Some? {
      var exact := BuildExactResult(lib, reg, url, scrubbed, platform);
      results := results + [exact];
      return;
    }
    results := CombineCandidates(lib, reg, url, scrubbed);
  }

  /** The branch of `generateResultsList` without a platform: the power set, then one candidate per subset. */
  method CombineCandidates(lib: UrlLibrary, reg: seq<Entry>, url: UrlRecord, scrubbed: UrlRecord)
    returns (results: seq<CleanUrlResult>)
    requires WellFormed(reg) && scrubbed == Scrubbed(reg, url) && |scrubbed.query| <= MaxElements
    ensures results == CandidateList(lib, reg, url)
  {
    var searchParamsPowerSet := GeneratePowerSet(Keys(scrubbed.query));
    results := PushCandidates(lib, reg, url, scrubbed, searchParamsPowerSet);
    assert |results| == |CandidateList(lib, reg, url)|;
  }

}
