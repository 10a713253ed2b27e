/**
 * `is_music_link`: an unanchored, case-insensitive search for
 * `(https?://)?(www\.)?(youtube\.com|youtu\.be|soundcloud\.com|spotify\.com)/[^\s]+`.
 *
 * Both leading groups are optional, so they never decide whether a match
 * exists: a line matches exactly when, at some position, one of the four
 * domains is followed by '/' and one non-whitespace character.
 */
module MusicLink {
  import opened Text

  /** The alternatives of the domain group, in pattern order. */
  const MusicDomains: seq<string> := ["youtube.com", "youtu.be", "soundcloud.com", "spotify.com"]

  /**
   * Whether the text character `c` matches the pattern character `p` under
   * `re.IGNORECASE`: a lower-case letter also matches its upper case, and the
   * case-folding table adds U+0130 and U+0131 for 'i' and U+017F for 's'.
   */
  predicate CharMatches(p: char, c: char) {
    || c == p
    || ('a' <= p <= 'z' && c as int == p as int - 32)
    || (p == 'i' && (c == '\U{0130}' || c == '\U{0131}'))
    || (p == 's' && c == '\U{017F}')
  }

  /** The characters of `line` from `at` on match `pat`, character by character. */
  ghost predicate MatchesAt(line: string, at: nat, pat: string) {
    && at + |pat| <= |line|
    && forall j :: 0 <= j < |pat| ==> CharMatches(pat[j], line[at + j])
  }

  /** `domain/` followed by at least one non-whitespace character starts at `at`. */
  ghost predicate LinkAt(line: string, at: nat, domain: string) {
    && MatchesAt(line, at, domain + "/")
    && at + |domain| + 1 < |line|
    && !IsSpace(line[at + |domain| + 1])
  }

  /** What `re.search` with the pattern decides. */
  ghost predicate HasMusicLink(line: string) {
    exists at: nat, d :: d in MusicDomains && LinkAt(line, at, d)
  }

  // ---------------------------------------------------------------- the search

  /** Matches `pat` against `line` from `at`, one character at a time. */
  function MatchFrom(line: string, at: nat, pat: string): (ok: bool)
    decreases pat
  {
    if pat == [] then at <= |line|
    else at < |line| && CharMatches(pat[0], line[at]) && MatchFrom(line, at + 1, pat[1..])
  }

  lemma {:induction false} MatchFromIff(line: string, at: nat, pat: string)
    ensures MatchFrom(line, at, pat) <==> MatchesAt(line, at, pat)
    decreases pat
  {
    if pat != [] {
      MatchFromIff(line, at + 1, pat[1..]);
      if MatchesAt(line, at, pat) {
        assert CharMatches(pat[0], line[at + 0]);
        forall j | 0 <= j < |pat[1..]|
          ensures CharMatches(pat[1..][j], line[at + 1 + j])
        {
          assert CharMatches(pat[j + 1], line[at + (j + 1)]);
        }
        assert MatchesAt(line, at + 1, pat[1..]);
        assert MatchFrom(line, at, pat);
      }
      if MatchFrom(line, at, pat) {
        forall j | 0 <= j < |pat|
          ensures CharMatches(pat[j], line[at + j])
        {
          if j > 0 {
            assert CharMatches(pat[1..][j - 1], line[at + 1 + (j - 1)]);
          }
        }
        assert MatchesAt(line, at, pat);
      }
    }
  }

  /** The link test for one domain at one position. */
  function LinkFrom(line: string, at: nat, domain: string): (ok: bool)
    ensures ok <==> LinkAt(line, at, domain)
  {
    MatchFromIff(line, at, domain + "/");
    MatchFrom(line, at, domain + "/")
      && at + |domain| + 1 < |line|
      && !IsSpace(line[at + |domain| + 1])
  }

  /** Tries the domains from index `k` on, in pattern order. */
  function AnyDomainFrom(line: string, at: nat, k: nat): (ok: bool)
    requires k <= |MusicDomains|
    ensures ok <==> exists d :: d in MusicDomains[k..] && LinkAt(line, at, d)
    decreases |MusicDomains| - k
  {
    if k == |MusicDomains| then false
    else
      assert MusicDomains[k..] == [MusicDomains[k]] + MusicDomains[k + 1..];
      LinkFrom(line, at, MusicDomains[k]) || AnyDomainFrom(line, at, k + 1)
  }

  /** The search: each start position from `at` on, left to right. */
  function SearchFrom(line: string, at: nat): (ok: bool)
    decreases |line| - at
  {
    if at >= |line| then false
    else AnyDomainFrom(line, at, 0) || SearchFrom(line, at + 1)
  }

  /** `is_music_link(line)`. */
  function IsMusicLink(line: string): bool {
    SearchFrom(line, 0)
  }

  lemma {:induction false} SearchFromIff(line: string, at: nat)
    ensures SearchFrom(line, at) <==>
      exists p: nat, d :: at <= p && d in MusicDomains && LinkAt(line, p, d)
    decreases |line| - at
  {
    assert MusicDomains[0..] == MusicDomains;
    if at < |line| {
      SearchFromIff(line, at + 1);
      if p: nat, d :| at <= p && d in MusicDomains && LinkAt(line, p, d) {
        if p > at {
          assert at + 1 <= p;
        }
      }
    }
  }

  /** The search finds a link exactly when the pattern has a match. */
  lemma IsMusicLinkIff(line: string)
    ensures IsMusicLink(line) <==> HasMusicLink(line)
  {
    SearchFromIff(line, 0);
  }

  /** A link at a position makes the whole line a music link, whatever surrounds it. */
  lemma MusicLinkAnywhere(before: string, domain: string, after: string)
    requires domain in MusicDomains
    requires |after| >= 1 && !IsSpace(after[0])
    ensures IsMusicLink(before + domain + "/" + after)
  {
    var line := before + domain + "/" + after;
    assert MatchesAt(line, |before|, domain + "/") by {
      forall j | 0 <= j < |domain + "/"|
        ensures CharMatches((domain + "/")[j], line[|before| + j])
      {
        assert line[|before| + j] == (domain + "/")[j];
      }
    }
    assert line[|before| + |domain| + 1] == after[0];
    assert LinkAt(line, |before|, domain);
    IsMusicLinkIff(line);
  }
}
