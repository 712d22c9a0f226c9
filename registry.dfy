/**
 * The identifier registry (`SourceIdentifiers.json`): platform entries in declaration order,
 * keyed by slug, plus the distinguished `global` entry whose identifiers apply to every URL.
 */
module Registry {
  import opened Options
  import opened Strings

  datatype Entry = Entry(slug: string, name: string, domains: seq<string>, sourceIdentifiers: seq<string>)

  const GlobalSlug: string := "global"

  function Slugs(reg: seq<Entry>): (r: seq<string>)
    ensures |r| == |reg|
    ensures forall k :: 0 <= k < |reg| ==> r[k] == reg[k].slug
  {
    if reg == [] then [] else [reg[0].slug] + Slugs(reg[1..])
  }

  /**
   * What the engine relies on of the registry file: keys of a JSON object are distinct,
   * and the `global` entry exists (reading `global.sourceidentifiers` would throw otherwise).
   */
  predicate WellFormed(reg: seq<Entry>) {
    (forall i, j :: 0 <= i < j < |reg| ==> reg[i].slug != reg[j].slug)
    && GlobalSlug in Slugs(reg)
  }

  /** `sourceIdentifiers[slug]`: the entry with that key, or `undefined`. */
  function Lookup(reg: seq<Entry>, slug: string): (r: Option<Entry>)
    ensures r.None? <==> slug !in Slugs(reg)
    ensures r.Some? ==> r.value in reg && r.value.slug == slug
  {
    if reg == [] then None
    else if reg[0].slug == slug then Some(reg[0])
    else
      assert Slugs(reg) == [reg[0].slug] + Slugs(reg[1..]);
      Lookup(reg[1..], slug)
  }

  /** In a well-formed registry the lookup of an entry's own slug finds that entry. */
  lemma {:induction false} LookupOwnSlug(reg: seq<Entry>, k: nat)
    requires WellFormed(reg) && k < |reg|
    ensures Lookup(reg, reg[k].slug) == Some(reg[k])
  {
    var r := Lookup(reg, reg[k].slug);
    assert r.Some?;
    var m :| 0 <= m < |reg| && reg[m] == r.value;
    assert reg[m].slug == reg[k].slug;
  }

  /** `sourceIdentifiers.global.sourceidentifiers`. */
  function GlobalIds(reg: seq<Entry>): seq<string>
    requires WellFormed(reg)
  {
    Lookup(reg, GlobalSlug).value.sourceIdentifiers
  }

  /** `config.domains.some(domain => hostname.includes(domain))`. */
  predicate MatchesHost(host: string, domains: seq<string>) {
    exists d :: d in domains && Contains(host, d)
  }

  /** Entry `k` is a platform entry (not `global`) one of whose domains occurs in `host`. */
  ghost predicate Claims(reg: seq<Entry>, host: string, k: int) {
    0 <= k < |reg| && reg[k].slug != GlobalSlug && MatchesHost(host, reg[k].domains)
  }

  /**
   * The loop of `identifyPlatform`: walks the entries from index `from` in declaration order,
   * skips `global`, and stops at the first entry that claims the host.
   */
  function FirstMatchFrom(reg: seq<Entry>, host: string, from: nat): (r: Option<nat>)
    requires from <= |reg|
    ensures r.Some? ==> from <= r.value < |reg|
    decreases |reg| - from
  {
    if from == |reg| then None
    else if reg[from].slug != GlobalSlug && MatchesHost(host, reg[from].domains) then Some(from)
    else FirstMatchFrom(reg, host, from + 1)
  }

  function FirstMatch(reg: seq<Entry>, host: string): (r: Option<nat>)
    ensures r.Some? ==> r.value < |reg|
  {
    FirstMatchFrom(reg, host, 0)
  }

  lemma {:induction false} FirstMatchFromIsFirst(reg: seq<Entry>, host: string, from: nat)
    requires from <= |reg|
    ensures FirstMatchFrom(reg, host, from).None? <==> forall k :: from <= k < |reg| ==> !Claims(reg, host, k)
    ensures FirstMatchFrom(reg, host, from).Some? ==>
      var k := FirstMatchFrom(reg, host, from).value;
      from <= k && Claims(reg, host, k) && forall m :: from <= m < k ==> !Claims(reg, host, m)
    decreases |reg| - from
  {
    if from < |reg| {
      FirstMatchFromIsFirst(reg, host, from + 1);
      if !Claims(reg, host, from) {
        assert forall k :: from <= k < |reg| ==> (!Claims(reg, host, k) <==> (k == from || !Claims(reg, host, k)));
      }
    }
  }

  /**
   * The entry `identifyPlatform` picks is the first platform entry, in declaration order,
   * that claims the host; there is none exactly when no platform entry claims it.
   */
  lemma FirstMatchIsFirst(reg: seq<Entry>, host: string)
    ensures FirstMatch(reg, host).None? <==> forall k :: 0 <= k < |reg| ==> !Claims(reg, host, k)
    ensures FirstMatch(reg, host).Some? ==>
      var k := FirstMatch(reg, host).value;
      Claims(reg, host, k) && forall m :: 0 <= m < k ==> !Claims(reg, host, m)
  {
    FirstMatchFromIsFirst(reg, host, 0);
  }

  /**
   * The `for (const [slug, config] of Object.entries(sourceIdentifiers))` loop itself: skips
   * `global` and returns at the first entry with a domain occurring in the host.
   */
  method ScanForPlatform(reg: seq<Entry>, host: string) returns (r: Option<nat>)
    ensures r == FirstMatch(reg, host)
  {
    var k := 0;
    while k < |reg|
      invariant 0 <= k <= |reg|
      invariant FirstMatchFrom(reg, host, k) == FirstMatch(reg, host)
    {
      var entry := reg[k];
      if entry.slug != GlobalSlug {
        var d := 0;
        while d < |entry.domains|
          invariant 0 <= d <= |entry.domains|
          invariant forall e :: 0 <= e < d ==> !Contains(host, entry.domains[e])
        {
          if Contains(host, entry.domains[d]) {
            return Some(k);
          }
          d := d + 1;
        }
      }
      k := k + 1;
    }
    return None;
  }

}
