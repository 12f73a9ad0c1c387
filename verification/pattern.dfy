/** The two capturing regular expressions content.js applies to link
    targets: `/\/video\/(BV[a-zA-Z0-9]+)/` for a video id and
    `/\/song\?id=(\d+)/` for a song id. Both have the shape "a literal, then
    a greedy non-empty run of one ASCII class", unanchored, and `match`
    returns group 1 of the leftmost match. */
module Pattern {
  import opened Wrappers
  import opened Strings

  /** `[a-zA-Z0-9]` and `\d` (ASCII digits only: the patterns carry no `u`
      flag). */
  datatype CharClass = AsciiAlnum | AsciiDigit

  predicate InClass(c: char, cls: CharClass) {
    match cls
    case AsciiAlnum => IsAsciiLetter(c) || IsDigit(c)
    case AsciiDigit => IsDigit(c)
  }

  /** Length of the maximal run of `cls` characters starting at `k`: what a
      greedy `+` consumes when nothing follows it in the pattern. */
  function RunLength(s: string, k: nat, cls: CharClass): (n: nat)
    requires k <= |s|
    ensures k + n <= |s|
    ensures forall i :: k <= i < k + n ==> InClass(s[i], cls)
    ensures k + n == |s| || !InClass(s[k + n], cls)
    decreases |s| - k
  {
    if k < |s| && InClass(s[k], cls) then 1 + RunLength(s, k + 1, cls) else 0
  }

  /** The pattern `lit` followed by at least one `cls` character matches at
      offset `i`. */
  ghost predicate MatchesAt(s: string, lit: string, cls: CharClass, i: int) {
    OccursAt(s, lit, i) && i + |lit| < |s| && InClass(s[i + |lit|], cls)
  }

  /** `i` is where the regular-expression engine reports its match: the
      first offset at which the pattern matches. */
  ghost predicate LeftmostMatch(s: string, lit: string, cls: CharClass, i: int) {
    MatchesAt(s, lit, cls, i) && forall j :: 0 <= j < i ==> !MatchesAt(s, lit, cls, j)
  }

  /** Tries the offsets `k`, `k + 1`, ... in turn, as a backtracking engine
      does for an unanchored pattern. */
  function FindFrom(s: string, lit: string, cls: CharClass, k: nat): (r: Option<nat>)
    requires k <= |s|
    ensures r.Some? ==> k <= r.value && MatchesAt(s, lit, cls, r.value)
    ensures r.Some? ==> forall j :: k <= j < r.value ==> !MatchesAt(s, lit, cls, j)
    ensures r.None? ==> forall j :: k <= j ==> !MatchesAt(s, lit, cls, j)
    decreases |s| - k
  {
    OccursAtIsStartsWith(s, lit, k);
    if k + |lit| < |s| && StartsWith(s[k..], lit) && InClass(s[k + |lit|], cls) then Some(k)
    else if k + |lit| >= |s| then None
    else FindFrom(s, lit, cls, k + 1)
  }

  /** Group 1 of the leftmost match of the pattern whose literal is `lit`
      and whose group starts `keep` characters before the end of `lit`
      (`keep` is 2 for the `BV` inside the video group, 0 for the song
      id). The group is those `keep` characters and the whole run after
      the literal. */
  function FirstCapture(s: string, lit: string, keep: nat, cls: CharClass): (r: Option<string>)
    requires keep <= |lit|
    ensures r.None? <==> forall i :: !MatchesAt(s, lit, cls, i)
    ensures r.Some? ==> exists i :: LeftmostMatch(s, lit, cls, i) && IsGroupAt(s, lit, keep, cls, i, r.value)
  {
    match FindFrom(s, lit, cls, 0)
    case None => None
    case Some(i) =>
      var start := i + |lit|;
      var g := s[start - keep..start + RunLength(s, start, cls)];
      CaptureAt(s, lit, keep, cls, i);
      assert LeftmostMatch(s, lit, cls, i) && IsGroupAt(s, lit, keep, cls, i, g);
      Some(g)
  }

  /** The text from `keep` characters before the end of the leftmost match
      of the literal through the end of the run after it is a group. */
  lemma CaptureAt(s: string, lit: string, keep: nat, cls: CharClass, i: nat)
    requires keep <= |lit|
    requires FindFrom(s, lit, cls, 0) == Some(i)
    ensures i + |lit| + RunLength(s, i + |lit|, cls) <= |s|
    ensures LeftmostMatch(s, lit, cls, i)
    ensures IsGroupAt(s, lit, keep, cls, i, s[i + |lit| - keep..i + |lit| + RunLength(s, i + |lit|, cls)])
  {
    assert MatchesAt(s, lit, cls, i);
    GroupOfMatch(s, lit, keep, cls, i);
  }

  /** At any offset where the pattern matches, the literal's last `keep`
      characters and the whole run after it form a group. */
  lemma GroupOfMatch(s: string, lit: string, keep: nat, cls: CharClass, i: nat)
    requires keep <= |lit| && MatchesAt(s, lit, cls, i)
    ensures i + |lit| + RunLength(s, i + |lit|, cls) <= |s|
    ensures IsGroupAt(s, lit, keep, cls, i, s[i + |lit| - keep..i + |lit| + RunLength(s, i + |lit|, cls)])
  {
    var start := i + |lit|;
    var n := RunLength(s, start, cls);
    var g := s[start - keep..start + n];
    assert |g| == keep + n && n >= 1;
    LiteralTail(s, lit, keep, i, n);
    RunSlice(s, start, keep, n, cls, g);
    GroupAtIntro(s, lit, keep, cls, i, g);
  }

  /** Past its first `keep` characters, a slice that ends with a run of
      `cls` characters holds only `cls` characters. */
  lemma RunSlice(s: string, start: nat, keep: nat, n: nat, cls: CharClass, g: string)
    requires keep <= start && start + n <= |s| && g == s[start - keep..start + n]
    requires forall i :: start <= i < start + n ==> InClass(s[i], cls)
    ensures forall j :: keep <= j < |g| ==> InClass(g[j], cls)
  {
    forall j | keep <= j < |g|
      ensures InClass(g[j], cls)
    {
      assert g[j] == s[start - keep + j];
    }
  }

  /** The conditions of `IsGroupAt`, one by one. */
  lemma GroupAtIntro(s: string, lit: string, keep: nat, cls: CharClass, i: nat, g: string)
    requires keep <= |lit| && i + |lit| + |g| - keep <= |s| && |g| > keep
    requires g == s[i + |lit| - keep..i + |lit| + |g| - keep]
    requires g[..keep] == lit[|lit| - keep..]
    requires forall j :: keep <= j < |g| ==> InClass(g[j], cls)
    requires i + |lit| + |g| - keep == |s| || !InClass(s[i + |lit| + |g| - keep], cls)
    ensures IsGroupAt(s, lit, keep, cls, i, g)
  {
  }

  /** The first `keep` characters of a group are the literal's last
      `keep`. */
  lemma LiteralTail(s: string, lit: string, keep: nat, i: nat, n: nat)
    requires keep <= |lit| && i + |lit| + n <= |s|
    requires s[i..i + |lit|] == lit
    ensures s[i + |lit| - keep..i + |lit| + n][..keep] == lit[|lit| - keep..]
  {
    var start := i + |lit|;
    assert s[start - keep..start + n][..keep] == s[start - keep..start];
    assert s[start - keep..start] == s[i..start][|lit| - keep..];
  }

  /** `g` is the group of a match at `i`: the last `keep` characters of the
      literal, then a non-empty run of `cls` characters that the next
      character (if any) does not extend. */
  ghost predicate IsGroupAt(s: string, lit: string, keep: nat, cls: CharClass, i: int, g: string) {
    var start := i + |lit|;
    && 0 <= i && keep <= |lit| && start + |g| - keep <= |s| && |g| > keep
    && g == s[start - keep..start + |g| - keep]
    && g[..keep] == lit[|lit| - keep..]
    && (forall j :: keep <= j < |g| ==> InClass(g[j], cls))
    && (start + |g| - keep == |s| || !InClass(s[start + |g| - keep], cls))
  }

  // ---------------------------------------------------------------------
  // The two patterns of content.js
  // ---------------------------------------------------------------------

  const VideoLiteral := "/video/BV"
  const SongLiteral := "/song?id="

  /** `href.match(/\/video\/(BV[a-zA-Z0-9]+)/)`, group 1 or null. */
  function ExtractBvId(href: string): (r: Option<string>)
    ensures r.None? <==> forall i :: !MatchesAt(href, VideoLiteral, AsciiAlnum, i)
    ensures r.Some? ==> |r.value| >= 3 && r.value[..2] == "BV"
    ensures r.Some? ==> forall j :: 2 <= j < |r.value| ==> InClass(r.value[j], AsciiAlnum)
    ensures r.Some? ==> exists i :: LeftmostMatch(href, VideoLiteral, AsciiAlnum, i)
                                    && IsGroupAt(href, VideoLiteral, 2, AsciiAlnum, i, r.value)
  {
    FirstCapture(href, VideoLiteral, 2, AsciiAlnum)
  }

  /** `href.match(/\/song\?id=(\d+)/)`, group 1 or null. */
  function ExtractSongId(href: string): (r: Option<string>)
    ensures r.None? <==> forall i :: !MatchesAt(href, SongLiteral, AsciiDigit, i)
    ensures r.Some? ==> |r.value| >= 1 && AllDigits(r.value)
    ensures r.Some? ==> exists i :: LeftmostMatch(href, SongLiteral, AsciiDigit, i)
                                    && IsGroupAt(href, SongLiteral, 0, AsciiDigit, i, r.value)
  {
    FirstCapture(href, SongLiteral, 0, AsciiDigit)
  }

  /** The captured group is a function of where the match starts: two
      matches at the same offset have the same group, so with the leftmost
      offset fixed the capture is fixed. */
  lemma GroupDetermined(s: string, lit: string, keep: nat, cls: CharClass, i: int, g1: string, g2: string)
    requires IsGroupAt(s, lit, keep, cls, i, g1) && IsGroupAt(s, lit, keep, cls, i, g2)
    ensures g1 == g2
  {
    GroupRun(s, lit, keep, cls, i, g1);
    GroupRun(s, lit, keep, cls, i, g2);
  }

  /** A group's run is the maximal run after the literal. */
  lemma GroupRun(s: string, lit: string, keep: nat, cls: CharClass, i: int, g: string)
    requires IsGroupAt(s, lit, keep, cls, i, g)
    ensures |g| == keep + RunLength(s, i + |lit|, cls)
  {
    var start := i + |lit|;
    forall j | start <= j < start + |g| - keep
      ensures InClass(s[j], cls)
    {
      assert s[j] == g[j - start + keep];
    }
    RunLengthUnique(s, start, cls, |g| - keep);
  }

  /** The maximal run is the only run that the next character does not
      extend. */
  lemma {:induction false} RunLengthUnique(s: string, k: nat, cls: CharClass, n: nat)
    requires k + n <= |s|
    requires forall j :: k <= j < k + n ==> InClass(s[j], cls)
    requires k + n == |s| || !InClass(s[k + n], cls)
    ensures RunLength(s, k, cls) == n
    decreases n
  {
    if n > 0 {
      RunLengthUnique(s, k + 1, cls, n - 1);
    }
  }

  /** Concrete captures: the id stops at the first character outside the
      class, and a literal with no run after it is no match. */
  lemma ExtractBvIdExample()
    ensures ExtractBvId("/video/BV1x?p") == Some("BV1x")
  {
    var h := "/video/BV1x?p";
    assert h[0..][..|VideoLiteral|] == VideoLiteral;
    assert FindFrom(h, VideoLiteral, AsciiAlnum, 0) == Some(0);
    assert RunLength(h, 11, AsciiAlnum) == 0;
    assert RunLength(h, 10, AsciiAlnum) == 1;
    assert RunLength(h, 9, AsciiAlnum) == 2;
    assert h[7..11] == "BV1x";
  }

  lemma ExtractSongIdExample()
    ensures ExtractSongId("/song?id=42&") == Some("42")
  {
    var t := "/song?id=42&";
    assert t[0..][..|SongLiteral|] == SongLiteral;
    assert FindFrom(t, SongLiteral, AsciiDigit, 0) == Some(0);
    assert RunLength(t, 11, AsciiDigit) == 0;
    assert RunLength(t, 10, AsciiDigit) == 1;
    assert RunLength(t, 9, AsciiDigit) == 2;
    assert t[9..11] == "42";
  }

  lemma ExtractSongIdNeedsDigits()
    ensures ExtractSongId("/song?id=") == None
    ensures ExtractSongId("/song?id=x1") == None
  {
    var t := "/song?id=x1";
    assert !MatchesAt(t, SongLiteral, AsciiDigit, 0);
    assert !MatchesAt(t, SongLiteral, AsciiDigit, 1) by {
      assert t[1..1 + |SongLiteral|][0] == 's';
    }
  }
}
