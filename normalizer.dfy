/**
 * Scheme repair shared by both copies of the engine: the scheme test
 * `/^[a-zA-Z][a-zA-Z\d+.-]*:/` (the scheme grammar of section 3.1 of RFC 3986),
 * `normalizeUrl`, and the protocol allow-list with its error message.
 */
module UrlNormalizer {
  import opened Strings

  predicate IsSchemeChar(c: char) {
    IsAsciiAlphanumeric(c) || c == '+' || c == '.' || c == '-'
  }

  /** From index `i` on: scheme characters, then a colon. */
  predicate SchemeTailFrom(s: string, i: nat)
    requires i <= |s|
    decreases |s| - i
  {
    i < |s| && (s[i] == ':' || (IsSchemeChar(s[i]) && SchemeTailFrom(s, i + 1)))
  }

  /** `/^[a-zA-Z][a-zA-Z\d+.-]*:/.test(s)`. */
  predicate HasScheme(s: string) {
    |s| > 0 && IsAsciiLetter(s[0]) && SchemeTailFrom(s, 1)
  }

  /** `s[..k + 1]` is a scheme followed by its colon. */
  ghost predicate SchemeEndsAt(s: string, k: int) {
    1 <= k < |s| && s[k] == ':' && IsAsciiLetter(s[0])
    && forall m :: 1 <= m < k ==> IsSchemeChar(s[m])
  }

  lemma {:induction false} SchemeTailFromIff(s: string, i: nat)
    requires 1 <= i <= |s| && IsAsciiLetter(s[0])
    requires forall m :: 1 <= m < i ==> IsSchemeChar(s[m])
    ensures SchemeTailFrom(s, i) <==> exists k :: i <= k && SchemeEndsAt(s, k)
    decreases |s| - i
  {
    if i < |s| {
      if s[i] == ':' {
        var colon := s[i];
        assert SchemeEndsAt(s, i);
        assert !IsSchemeChar(colon);
        assert forall k :: i < k && SchemeEndsAt(s, k) ==> IsSchemeChar(colon);
      } else if IsSchemeChar(s[i]) {
        SchemeTailFromIff(s, i + 1);
        if exists k :: i <= k && SchemeEndsAt(s, k) {
          var k :| i <= k && SchemeEndsAt(s, k);
          assert k != i;
        }
      } else {
        assert forall k :: i <= k && SchemeEndsAt(s, k) ==> s[i] == ':' || IsSchemeChar(s[i]);
      }
    }
  }

  /** The scheme test holds exactly when the string starts with a scheme and a colon. */
  lemma HasSchemeIff(s: string)
    ensures HasScheme(s) <==> exists k :: SchemeEndsAt(s, k)
  {
    if |s| > 0 && IsAsciiLetter(s[0]) {
      SchemeTailFromIff(s, 1);
    }
  }

  /** A scheme never starts with `/`, so a scheme-bearing string is not protocol-relative. */
  lemma SchemeIsNotSlash(s: string)
    requires HasScheme(s)
    ensures !("//" <= s)
  {
  }

  /** Any string that starts with `https:` passes the scheme test. */
  lemma HttpsHasScheme(s: string)
    requires "https:" <= s
    ensures HasScheme(s)
  {
    assert SchemeEndsAt(s, 5) by {
      assert s[..6] == "https:";
      assert s[0] == 'h' && s[1] == 't' && s[2] == 't' && s[3] == 'p' && s[4] == 's' && s[5] == ':';
    }
    HasSchemeIff(s);
  }

  /**
   * `normalizeUrl`: trims; empty stays empty; a string with a scheme is returned as is;
   * `//host` becomes `https://host`; anything else gets `https://` in front.
   */
  function NormalizeUrl(input: string): string {
    var trimmed := Trim(input);
    if trimmed == [] then trimmed
    else if HasScheme(trimmed) then trimmed
    else if "//" <= trimmed then "https:" + trimmed
    else "https://" + trimmed
  }

  /** `https:` in front of `//rest` is `https://` in front of `rest`. */
  lemma HttpsBeforeSlashes(rest: string)
    ensures "https:" + ("//" + rest) == "https://" + rest
  {
    assert "https:" + "//" == "https://";
  }

  /**
   * What `normalizeUrl` yields: empty exactly for blank input, otherwise a string with a
   * scheme; input that already has a scheme is only trimmed, anything else gains `https:`
   * or `https://` in front, and in both cases reads as `https://` followed by the host part
   * (a network-path reference `//host` keeps a single pair of slashes).
   */
  lemma NormalizeUrlForms(input: string)
    ensures NormalizeUrl(input) == [] <==> Trim(input) == []
    ensures NormalizeUrl(input) != [] ==> HasScheme(NormalizeUrl(input))
    ensures HasScheme(Trim(input)) ==> NormalizeUrl(input) == Trim(input)
    ensures var r := NormalizeUrl(input); var t := Trim(input);
      r == t || r == "https:" + t || r == "https://" + t
    ensures var t := Trim(input);
      t != [] && !HasScheme(t) ==> NormalizeUrl(input) == "https://" + (if "//" <= t then t[2..] else t)
  {
    var trimmed := Trim(input);
    if trimmed != [] && !HasScheme(trimmed) {
      if "//" <= trimmed {
        HttpsHasScheme("https:" + trimmed);
        var rest := trimmed[2..];
        assert trimmed == "//" + rest;
        HttpsBeforeSlashes(rest);
      } else {
        HttpsHasScheme("https://" + trimmed);
      }
    }
  }

  /** `normalizeUrl(normalizeUrl(x)) == normalizeUrl(x)`. */
  lemma NormalizeUrlIdempotent(input: string)
    ensures NormalizeUrl(NormalizeUrl(input)) == NormalizeUrl(input)
  {
    var t := Trim(input);
    var r := NormalizeUrl(input);
    NormalizeUrlForms(input);
    if r != [] {
      assert r[|r| - 1] == t[|t| - 1];
      TrimOfTrimmed(r);
    }
  }

  /** `ALLOWED_PROTOCOLS`. */
  const AllowedProtocols: seq<string> := ["http:", "https:"]

  /** `getSupportedProtocols()`: the allow-list with the first colon of each entry removed. */
  function GetSupportedProtocols(): (r: seq<string>)
    ensures r == ["http", "https"]
  {
    assert AllowedProtocols[0] == "http" + ":" && AllowedProtocols[1] == "https" + ":";
    RemoveFirstColon("http");
    RemoveFirstColon("https");
    [RemoveFirst(AllowedProtocols[0], ':'), RemoveFirst(AllowedProtocols[1], ':')]
  }

  lemma {:induction false} RemoveFirstColon(a: string)
    requires ':' !in a
    ensures RemoveFirst(a + ":", ':') == a
  {
    if a != [] {
      assert (a + ":")[1..] == a[1..] + ":";
      RemoveFirstColon(a[1..]);
    }
  }

  /** Every allowed protocol, without its colon, is a supported protocol name. */
  lemma AllowedAreSupported(protocol: string)
    requires protocol in AllowedProtocols
    ensures RemoveFirst(protocol, ':') in GetSupportedProtocols()
  {
    if protocol == AllowedProtocols[0] {
      assert RemoveFirst(protocol, ':') == "http" by {
        assert protocol == "http" + ":";
        RemoveFirstColon("http");
      }
      assert GetSupportedProtocols()[0] == "http";
    } else {
      assert RemoveFirst(protocol, ':') == "https" by {
        assert protocol == "https" + ":";
        RemoveFirstColon("https");
      }
      assert GetSupportedProtocols()[1] == "https";
    }
  }

  /** `ALLOWED_PROTOCOLS.join(", ")`, written out. */
  const AllowedProtocolsText: string := "http:, https:"

  lemma AllowedProtocolsTextIsJoin()
    ensures Join(AllowedProtocols, ", ") == AllowedProtocolsText
  {
    assert Join(AllowedProtocols[1..], ", ") == "https:";
  }

  /** The message both copies give for a protocol outside the allow-list. */
  const ProtocolMessageHead: string := "Only the protocols " + AllowedProtocolsText + " are currently allowed. Detected protocol: "
  const ProtocolMessageTail: string := ". If you think this should be supported, please report it on our GitHub page."

  function UnsupportedProtocolMessage(protocol: string): string {
    ProtocolMessageHead + RemoveFirst(protocol, ':') + ProtocolMessageTail
  }

}
