/** The room-server address: `normalizeEndPoint` (background.js and its
    copy in popup.js) and the popup's `isValidEndPoint`, whose two anchored
    regular expressions are written here as character-class predicates. */
module Endpoint {
  import opened Strings

  const HttpScheme := "http://"
  const HttpsScheme := "https://"

  predicate HasScheme(s: string) {
    StartsWith(s, HttpScheme) || StartsWith(s, HttpsScheme)
  }

  // ---------------------------------------------------------------------
  // normalizeEndPoint
  // ---------------------------------------------------------------------

  /** Prepends `https://` unless the address already names an HTTP scheme.
      Nothing of the user's address is lost: it is either the whole result
      or what follows the added scheme. */
  function Normalize(endPoint: string): (r: string)
    ensures HasScheme(r)
    ensures |endPoint| <= |r| && r[|r| - |endPoint|..] == endPoint
  {
    if !StartsWith(endPoint, HttpScheme) && !StartsWith(endPoint, HttpsScheme) then
      HttpsScheme + endPoint
    else
      endPoint
  }

  /** An address that already carries `http://` or `https://` is kept as
      it is. */
  lemma NormalizeKeepsScheme(endPoint: string)
    requires HasScheme(endPoint)
    ensures Normalize(endPoint) == endPoint
  {
  }

  /** Any other address, including the empty one, gets exactly `https://`
      in front. */
  lemma NormalizeAddsHttps(endPoint: string)
    requires !HasScheme(endPoint)
    ensures Normalize(endPoint) == HttpsScheme + endPoint
    ensures Normalize(endPoint)[|HttpsScheme|..] == endPoint
  {
  }

  /** Normalizing an already normalized address changes nothing. */
  lemma NormalizeIdempotent(endPoint: string)
    ensures Normalize(Normalize(endPoint)) == Normalize(endPoint)
  {
  }

  // ---------------------------------------------------------------------
  // isValidEndPoint
  // ---------------------------------------------------------------------

  /** The class `[a-zA-Z0-9.-]`. */
  predicate IsHostChar(c: char) {
    IsAsciiLetter(c) || IsDigit(c) || c == '.' || c == '-'
  }

  /** Length of the longest prefix of `s` made of host characters. */
  function HostPrefixLength(s: string): (n: nat)
    ensures n <= |s|
    ensures forall i :: 0 <= i < n ==> IsHostChar(s[i])
    ensures n == |s| || !IsHostChar(s[n])
  {
    if |s| > 0 && IsHostChar(s[0]) then 1 + HostPrefixLength(s[1..]) else 0
  }

  /** The group `:[0-9]+`. */
  predicate IsPort(p: string) {
    |p| >= 2 && p[0] == ':' && AllDigits(p[1..])
  }

  /** `^[a-zA-Z0-9.-]+(?::[0-9]+)?$`. A colon is not a host character, so
      the host part a match could use is exactly the longest one. */
  predicate MatchesHostPort(s: string) {
    var n := HostPrefixLength(s);
    0 < n && (n == |s| || IsPort(s[n..]))
  }

  /** `urlPattern`: `^https?://` followed by a host and optional port. */
  predicate MatchesUrlPattern(s: string) {
    || (StartsWith(s, HttpScheme) && MatchesHostPort(s[|HttpScheme|..]))
    || (StartsWith(s, HttpsScheme) && MatchesHostPort(s[|HttpsScheme|..]))
  }

  /** `domainPattern`: a bare host with optional port. */
  predicate MatchesDomainPattern(s: string) {
    MatchesHostPort(s)
  }

  /** `isValidEndPoint`: either pattern accepts. The two patterns never
      overlap on a schemed string, so the address is valid exactly when
      what follows its scheme, if any, is a host and optional port. */
  predicate IsValidEndPoint(s: string): (ok: bool)
    ensures ok <==> MatchesHostPort(s[SchemeLength(s)..])
  {
    SchemeIsNotHostPort(s);
    MatchesUrlPattern(s) || MatchesDomainPattern(s)
  }

  /** A string starting with `http://` or `https://` is no bare host and
      port: the host run stops at the scheme's `:`, and a `/` follows it.
      And no string starts with both schemes. */
  lemma SchemeIsNotHostPort(s: string)
    ensures HasScheme(s) ==> !MatchesHostPort(s)
    ensures StartsWith(s, HttpsScheme) ==> !StartsWith(s, HttpScheme)
  {
    if StartsWith(s, HttpsScheme) {
      assert s[4] == HttpsScheme[4];
    }
    if HasScheme(s) {
      var k := if StartsWith(s, HttpsScheme) then 5 else 4;
      var p := if StartsWith(s, HttpsScheme) then HttpsScheme else HttpScheme;
      assert forall i :: 0 <= i < |p| ==> s[i] == p[i];
      assert s[k] == ':' && s[k + 1] == '/';
      var n := HostPrefixLength(s);
      assert n == k;
      assert s[n..][1] == '/';
    }
  }

  // ---------------------------------------------------------------------
  // Reference reading of the patterns, and its agreement with the scanner
  // ---------------------------------------------------------------------

  /** `s` splits after `n` characters into a non-empty run of host
      characters and an empty or `:digits` tail. */
  ghost predicate HostPortSplit(s: string, n: int) {
    && 0 < n <= |s|
    && (forall i :: 0 <= i < n ==> IsHostChar(s[i]))
    && (n == |s| || IsPort(s[n..]))
  }

  /** What the regular expression `[a-zA-Z0-9.-]+(?::[0-9]+)?` accepts
      when anchored at both ends: some split of the kind above exists. */
  ghost predicate HostPortShape(s: string) {
    exists n :: HostPortSplit(s, n)
  }

  /** An optional `http://` or `https://`, then a host-and-port. */
  ghost predicate EndPointShape(s: string) {
    || HostPortShape(s)
    || (StartsWith(s, HttpScheme) && HostPortShape(s[|HttpScheme|..]))
    || (StartsWith(s, HttpsScheme) && HostPortShape(s[|HttpsScheme|..]))
  }

  /** The scanner decides the pattern: it accepts exactly the strings that
      have a host/port split, and that split is unique. */
  lemma HostPortScan(s: string)
    ensures MatchesHostPort(s) <==> HostPortShape(s)
    ensures forall n :: HostPortSplit(s, n) ==> n == HostPrefixLength(s)
  {
    var m := HostPrefixLength(s);
    if MatchesHostPort(s) {
      assert HostPortSplit(s, m);
    }
    forall n | HostPortSplit(s, n)
      ensures n == m
    {
    }
  }

  /** `isValidEndPoint` accepts exactly an optional `http://` or
      `https://`, a non-empty run of letters, digits, `.` and `-`, and an
      optional `:` with at least one digit. */
  lemma IsValidEndPointSpec(s: string)
    ensures IsValidEndPoint(s) <==> EndPointShape(s)
  {
    HostPortScan(s);
    if StartsWith(s, HttpScheme) {
      HostPortScan(s[|HttpScheme|..]);
    }
    if StartsWith(s, HttpsScheme) {
      HostPortScan(s[|HttpsScheme|..]);
    }
  }

  /** A host-and-port contains neither `/` nor a trailing `:`: it ends in a
      host character or a digit. */
  lemma HostPortCharacters(s: string)
    requires MatchesHostPort(s)
    ensures forall i :: 0 <= i < |s| ==> s[i] != '/'
    ensures IsHostChar(s[|s| - 1])
  {
    var n := HostPrefixLength(s);
    if n < |s| {
      var p := s[n..];
      forall i | n < i < |s|
        ensures IsDigit(s[i])
      {
        assert s[i] == p[1..][i - n - 1];
      }
      assert s[n] == p[0];
    }
  }

  /** Number of characters the accepted scheme occupies (0 when none). */
  function SchemeLength(s: string): nat {
    if StartsWith(s, HttpsScheme) then |HttpsScheme|
    else if StartsWith(s, HttpScheme) then |HttpScheme|
    else 0
  }

  /** What `isValidEndPoint` rejects: the empty string, any `/` after the
      scheme (so paths and a trailing slash), a trailing bare `:`, and any
      `/` at all unless the string starts with `http://` or `https://` (so
      other schemes such as `ftp://`). */
  lemma ValidEndPointRejects(s: string)
    requires IsValidEndPoint(s)
    ensures |s| > 0
    ensures forall i :: SchemeLength(s) <= i < |s| ==> s[i] != '/'
    ensures s[|s| - 1] != '/' && s[|s| - 1] != ':'
    ensures !HasScheme(s) ==> forall i :: 0 <= i < |s| ==> s[i] != '/'
  {
    var k := SchemeLength(s);
    if MatchesDomainPattern(s) {
      HostPortCharacters(s);
      NoSlashNoScheme(s);
    } else if StartsWith(s, HttpsScheme) && MatchesHostPort(s[|HttpsScheme|..]) {
      HostPortCharacters(s[k..]);
      assert forall i :: k <= i < |s| ==> s[i] == s[k..][i - k];
    } else {
      assert StartsWith(s, HttpScheme) && MatchesHostPort(s[|HttpScheme|..]);
      assert !StartsWith(s, HttpsScheme) by { assert s[4] == HttpScheme[4]; }
      HostPortCharacters(s[k..]);
      assert forall i :: k <= i < |s| ==> s[i] == s[k..][i - k];
    }
  }

  /** A scheme-less string without `/` cannot start with a scheme. */
  lemma NoSlashNoScheme(s: string)
    requires forall i :: 0 <= i < |s| ==> s[i] != '/'
    ensures !HasScheme(s)
  {
    if |s| >= |HttpsScheme| {
      assert s[..|HttpsScheme|][6] == s[6];
    }
    if |s| >= |HttpScheme| {
      assert s[..|HttpScheme|][5] == s[5];
    }
  }

  /** A `/` past the scheme makes the address invalid. */
  lemma SlashRejected(s: string, i: nat)
    requires SchemeLength(s) <= i < |s| && s[i] == '/'
    ensures !IsValidEndPoint(s)
  {
    if IsValidEndPoint(s) {
      ValidEndPointRejects(s);
    }
  }

  /** Concrete acceptances of `isValidEndPoint`: a bare host with a port,
      and URLs with either scheme. */
  lemma AcceptsBareHostWithPort()
    ensures IsValidEndPoint("localhost:8080")
  {
    assert HostPortSplit("localhost:8080", 9);
    ValidEndPointAccepts("localhost:8080", 0);
  }

  lemma AcceptsHttpsUrl()
    ensures IsValidEndPoint("https://room.example.com")
  {
    assert "https://room.example.com"[8..] == "room.example.com";
    assert HostPortSplit("room.example.com", 16);
    ValidEndPointAccepts("https://room.example.com", 8);
  }

  /** Concrete rejections: the empty string, a trailing slash, a bare
      colon, a path, and a foreign scheme. */
  lemma RejectsEmpty()
    ensures !IsValidEndPoint("")
  {
  }

  lemma RejectsTrailingSlash()
    ensures !IsValidEndPoint("example.com/")
  {
    SlashRejected("example.com/", 11);
  }

  lemma RejectsBareColon()
    ensures !IsValidEndPoint("example.com:")
  {
    if IsValidEndPoint("example.com:") {
      ValidEndPointRejects("example.com:");
    }
  }

  lemma RejectsPath()
    ensures !IsValidEndPoint("https://example.com/api")
  {
    SlashRejected("https://example.com/api", 19);
  }

  lemma RejectsOtherScheme()
    ensures !IsValidEndPoint("ftp://example.com")
  {
    assert "ftp://example.com"[..|HttpScheme|][0] == 'f';
    assert "ftp://example.com"[..|HttpsScheme|][0] == 'f';
    SlashRejected("ftp://example.com", 4);
  }

  lemma ValidEndPointAccepts(s: string, k: nat)
    requires k == 0 || k == |HttpScheme| || k == |HttpsScheme|
    requires k <= |s|
    requires k == |HttpScheme| ==> StartsWith(s, HttpScheme)
    requires k == |HttpsScheme| ==> StartsWith(s, HttpsScheme)
    requires HostPortShape(s[k..])
    ensures IsValidEndPoint(s)
  {
    if k == 0 { assert s[k..] == s; }
    IsValidEndPointSpec(s);
  }

  /** A valid address, once normalized, is in the URL form: one HTTP scheme
      followed by the host and port the user typed; `https://` is never put
      in front of a string that already had a scheme. */
  lemma NormalizeValid(endPoint: string)
    requires IsValidEndPoint(endPoint)
    ensures MatchesUrlPattern(Normalize(endPoint))
    ensures MatchesDomainPattern(endPoint) ==> Normalize(endPoint) == HttpsScheme + endPoint
  {
    ValidEndPointRejects(endPoint);
    if MatchesDomainPattern(endPoint) {
      HostPortCharacters(endPoint);
      NoSlashNoScheme(endPoint);
      assert (HttpsScheme + endPoint)[|HttpsScheme|..] == endPoint;
    }
  }
}
