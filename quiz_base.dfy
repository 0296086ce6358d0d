/**
 * The shared helpers of `src/routes/quiz_base.py`: extracting a playlist id
 * from what the user typed, the buddy's line table and the older
 * level-to-settings table.  `src/routes/quiz_main.py` repeats the parser
 * word for word; its own, larger line table is `QuizMain.BuddyLines`.
 */
module QuizBase {
  import opened Prelude
  import opened Text
  import opened Models

  // ---------------------------------------------------------------------
  // Playlist id extraction
  // ---------------------------------------------------------------------

  /** The two alternatives in front of the id group of the pattern. */
  const LinkMarker: string := "spotify.com/playlist/"
  const UriMarker: string := "spotify:playlist:"

  /** One of the two markers starts at position `i`. */
  predicate MarkerAt(s: string, i: nat)
  {
    i <= |s| && (StartsWith(s[i..], LinkMarker) || StartsWith(s[i..], UriMarker))
  }

  /** The length of the marker found at `i` (the two cannot both match:
      they differ in their eighth character). */
  function MarkerLen(s: string, i: nat): (n: nat)
    requires MarkerAt(s, i)
    ensures i + n <= |s|
    ensures n == |LinkMarker| || n == |UriMarker|
  {
    if StartsWith(s[i..], LinkMarker) then |LinkMarker| else |UriMarker|
  }

  /** The whole pattern matches at `i`: a marker and at least one
      character of `[A-Za-z0-9]` after it. */
  predicate MatchAt(s: string, i: nat)
  {
    MarkerAt(s, i) && i + MarkerLen(s, i) < |s| && IsAlnum(s[i + MarkerLen(s, i)])
  }

  /** `re.search`: the leftmost position at or after `from` where the pattern matches. */
  function FindMatch(s: string, from: nat): (r: Option<nat>)
    requires from <= |s|
    ensures r.Some? ==> from <= r.value <= |s| && MatchAt(s, r.value)
                        && forall k :: from <= k < r.value ==> !MatchAt(s, k)
    ensures r.None? ==> forall k :: from <= k <= |s| ==> !MatchAt(s, k)
    decreases |s| - from
  {
    if MatchAt(s, from) then Some(from)
    else if from == |s| then None
    else FindMatch(s, from + 1)
  }

  /** The greedy group `([A-Za-z0-9]+)`: the longest alphanumeric run at `j`. */
  function AlnumRun(s: string, j: nat): (run: string)
    requires j <= |s|
    ensures j + |run| <= |s| && run == s[j..j + |run|]
    ensures AllAlnum(run)
    ensures j + |run| == |s| || !IsAlnum(s[j + |run|])
    decreases |s| - j
  {
    if j < |s| && IsAlnum(s[j]) then [s[j]] + AlnumRun(s, j + 1) else ""
  }

  /** Some position of `t` starts a match of the pattern. */
  predicate HasMatch(t: string)
  {
    exists k :: 0 <= k <= |t| && MatchAt(t, k)
  }

  /** `parse_spotify_playlist_input`: nothing for empty input; otherwise a
      non-empty alphanumeric id when the stripped input holds a link or URI
      marker followed by one, and else the stripped input itself (both of
      the final branches return it). */
  function ParsePlaylistInput(input: Option<string>): (id: string)
    ensures (input.None? || input.value == "") ==> id == ""
  {
    if input.None? || input.value == "" then "" else ParseStripped(Strip(input.value))
  }

  /** What the parser does once the input is stripped. */
  function ParseStripped(t: string): string
  {
    match FindMatch(t, 0)
    case Some(i) => IdAfter(t, i)
    case None => t
  }

  /** `match.group(1)` for a match at `i`. */
  function IdAfter(t: string, i: nat): string
    requires MarkerAt(t, i)
  {
    AlnumRun(t, i + MarkerLen(t, i))
  }

  /** An input without surrounding whitespace goes to the matcher as it is. */
  lemma {:induction false} ParseUnpadded(t: string)
    requires t != "" && !IsSpace(t[0]) && !IsSpace(t[|t| - 1])
    ensures ParsePlaylistInput(Some(t)) == ParseStripped(t)
  {
  }

  /** With a match, the id is the longest alphanumeric run right after the
      marker of the leftmost match. */
  lemma {:induction false} ParseLeftmost(t: string, i: nat)
    requires i <= |t| && MatchAt(t, i)
    requires forall k :: 0 <= k < i ==> !MatchAt(t, k)
    ensures ParseStripped(t) == IdAfter(t, i)
  {
    assert FindMatch(t, 0) == Some(i);
  }

  /** The matcher yields a non-empty alphanumeric id when there is a
      match, and its input unchanged when there is none. */
  lemma {:induction false} ParseStrippedResult(t: string)
    ensures HasMatch(t) ==> ParseStripped(t) != "" && AllAlnum(ParseStripped(t))
    ensures !HasMatch(t) ==> ParseStripped(t) == t
  {
    match FindMatch(t, 0)
    case Some(i) =>
      var j := i + MarkerLen(t, i);
      assert AlnumRun(t, j) == [t[j]] + AlnumRun(t, j + 1);
    case None =>
  }

  /** For any non-empty input: an id made of letters and digits when the
      stripped input holds a link or URI marker followed by one, and the
      stripped input otherwise. */
  lemma {:induction false} ParseResult(s: string)
    requires s != ""
    ensures HasMatch(Strip(s)) ==> ParsePlaylistInput(Some(s)) != "" && AllAlnum(ParsePlaylistInput(Some(s)))
    ensures !HasMatch(Strip(s)) ==> ParsePlaylistInput(Some(s)) == Strip(s)
  {
    ParseStrippedResult(Strip(s));
  }

  /** The input is stripped before anything else looks at it. */
  lemma {:induction false} ParseIgnoresSurroundingSpace(s: string)
    ensures ParsePlaylistInput(Some(s)) == ParsePlaylistInput(Some(Strip(s)))
  {
    if Strip(s) != "" {
      StripIdempotent(s);
    } else if s != "" {
      assert ParseStripped("") == "";
    }
  }

  /** The characters every marker starts with, and its eighth one. */
  lemma MarkerChars(s: string, k: nat)
    ensures MarkerAt(s, k) ==>
      k + 8 <= |s| && s[k] == 's' && s[k + 1] == 'p' && (s[k + 7] == '.' || s[k + 7] == ':')
  {
    if MarkerAt(s, k) {
      var w := s[k..];
      if StartsWith(w, LinkMarker) {
        var p := w[..|LinkMarker|];
        assert p == LinkMarker;
        assert w[0] == p[0] && w[1] == p[1] && w[7] == p[7];
      } else {
        var p := w[..|UriMarker|];
        assert p == UriMarker;
        assert w[0] == p[0] && w[1] == p[1] && w[7] == p[7];
      }
      assert s[k] == w[0] && s[k + 1] == w[1] && s[k + 7] == w[7];
    }
  }

  /** No alphanumeric string contains a marker. */
  lemma NoMatchInAlnum(s: string, k: nat)
    requires AllAlnum(s)
    ensures !MatchAt(s, k)
  {
    MarkerChars(s, k);
  }

  /** A bare playlist id is returned as it is. */
  lemma ParseBareId(id: string)
    requires id != "" && AllAlnum(id)
    ensures ParsePlaylistInput(Some(id)) == id
  {
    assert Strip(id) == id;
    forall k | 0 <= k <= |id| ensures !MatchAt(id, k) {
      NoMatchInAlnum(id, k);
    }
  }

  /** The run after a marker stops at the first non-alphanumeric character. */
  lemma {:induction false} AlnumRunBefore(t: string, j: nat, id: string)
    requires j + |id| <= |t| && t[j..j + |id|] == id && AllAlnum(id)
    requires j + |id| == |t| || !IsAlnum(t[j + |id|])
    ensures AlnumRun(t, j) == id
    decreases |id|
  {
    if id != [] {
      assert t[j] == id[0];
      assert t[j + 1..j + |id|] == id[1..];
      AlnumRunBefore(t, j + 1, id[1..]);
    }
  }

  lemma {:induction false} UriMatch(id: string)
    requires id != "" && AllAlnum(id)
    ensures MatchAt(UriMarker + id, 0) && MarkerLen(UriMarker + id, 0) == |UriMarker|
  {
    var t := UriMarker + id;
    assert t[0..] == t;
    assert t[..|UriMarker|] == UriMarker;
    assert t[7] == ':';
    assert t[|UriMarker|] == id[0];
  }

  /** `spotify:playlist:<id>` gives back `<id>`. */
  lemma {:induction false} ParseUri(id: string)
    requires id != "" && AllAlnum(id)
    ensures ParsePlaylistInput(Some(UriMarker + id)) == id
  {
    var t := UriMarker + id;
    var n := |UriMarker|;
    UriMatch(id);
    assert t[|t| - 1] == id[|id| - 1];
    ParseUnpadded(t);
    ParseLeftmost(t, 0);
    assert t[n..n + |id|] == id;
    AlnumRunBefore(t, n, id);
  }

  /** No marker starts inside `https://open.`. */
  lemma NoMatchInScheme(t: string, k: nat)
    requires StartsWith(t, "https://open.") && k < 13
    ensures !MatchAt(t, k)
  {
    MarkerChars(t, k);
    assert t[..13] == "https://open.";
    assert t[4] == 's' && t[5] == ':';
  }

  /** Where the pieces of a web link sit. */
  lemma {:induction false} LinkShape(id: string, query: string)
    requires id != "" && AllAlnum(id)
    requires query == "" || (query[0] == '?' && !IsSpace(query[|query| - 1]))
    ensures var t := "https://open." + LinkMarker + id + query;
      var j := 13 + |LinkMarker|;
      && StartsWith(t, "https://open.")
      && MatchAt(t, 13) && MarkerLen(t, 13) == |LinkMarker|
      && j + |id| <= |t| && t[j..j + |id|] == id
      && (j + |id| == |t| || t[j + |id|] == '?')
      && !IsSpace(t[0]) && !IsSpace(t[|t| - 1])
  {
    var scheme := "https://open.";
    var rest := id + query;
    var t := scheme + (LinkMarker + rest);
    assert t == scheme + LinkMarker + id + query;
    var j := 13 + |LinkMarker|;
    assert t[..13] == scheme;
    assert t[13..] == LinkMarker + rest;
    assert t[13..][..|LinkMarker|] == LinkMarker;
    assert t[j..] == rest;
    assert t[j] == id[0];
    assert t[j..j + |id|] == id;
    assert j + |id| < |t| ==> t[j + |id|] == query[0];
    assert t[|t| - 1] == rest[|rest| - 1];
  }

  /** `https://open.spotify.com/playlist/<id>`, optionally followed by a
      `?...` query, gives back `<id>`. */
  lemma {:induction false} ParseLink(id: string, query: string)
    requires id != "" && AllAlnum(id)
    requires query == "" || (query[0] == '?' && !IsSpace(query[|query| - 1]))
    ensures ParsePlaylistInput(Some("https://open." + LinkMarker + id + query)) == id
  {
    var t := "https://open." + LinkMarker + id + query;
    LinkShape(id, query);
    forall k | 0 <= k < 13 ensures !MatchAt(t, k) {
      NoMatchInScheme(t, k);
    }
    ParseUnpadded(t);
    ParseIdAfter(t, 13, id);
  }

  /** A leftmost match at `i` whose marker is followed by exactly `id`
      gives back `id`. */
  lemma ParseIdAfter(t: string, i: nat, id: string)
    requires i <= |t| && MatchAt(t, i)
    requires forall k :: 0 <= k < i ==> !MatchAt(t, k)
    requires var j := i + MarkerLen(t, i);
      j + |id| <= |t| && t[j..j + |id|] == id && AllAlnum(id)
      && (j + |id| == |t| || !IsAlnum(t[j + |id|]))
    ensures ParseStripped(t) == id
  {
    ParseLeftmost(t, i);
    AlnumRunBefore(t, i + MarkerLen(t, i), id);
  }

  // ---------------------------------------------------------------------
  // The buddy's lines
  // ---------------------------------------------------------------------

  /** How many lines each personality has per category; the wording of the
      lines is not modelled. */
  function FriendlyLines(): map<string, nat>
  {
    map["correct" := 3, "wrong" := 2, "start" := 1]
  }

  function StrictLines(): map<string, nat>
  {
    map["correct" := 2, "wrong" := 2, "start" := 1]
  }

  /** `get_buddy_personality_lines` of this module: the table of the given
      personality, the friendly one for any name it does not know. */
  function BuddyLines(personality: string): (lines: map<string, nat>)
    ensures lines.Keys == {"correct", "wrong", "start"}
    ensures forall c :: c in lines ==> lines[c] >= 1
    ensures personality == "strict" ==> lines == StrictLines()
    ensures personality != "strict" ==> lines == FriendlyLines()
  {
    var tables := map["friendly" := FriendlyLines(), "strict" := StrictLines()];
    if personality in tables then tables[personality] else tables["friendly"]
  }

  /** The table of this module has no "rank" category, whatever the
      personality: looking it up is a `KeyError`. */
  lemma BuddyLinesLackRank(personality: string)
    ensures "rank" !in BuddyLines(personality)
    ensures "hint" !in BuddyLines(personality)
  {
  }

  // ---------------------------------------------------------------------
  // Settings by level
  // ---------------------------------------------------------------------

  datatype PersonalizationSettings = PersonalizationSettings(yearMargin: nat, snippetSeconds: nat, showHints: bool)

  /** `get_personalization_settings`: any name other than the two first
      levels gets the advanced settings. */
  function SettingsFor(level: string): (s: PersonalizationSettings)
    ensures s.showHints <==> level == "beginner"
    ensures s == PersonalizationSettings(3, 30, true) <==> level == "beginner"
    ensures s == PersonalizationSettings(1, 15, false) <==> level == "intermediate"
    ensures s == PersonalizationSettings(0, 5, false) <==> level != "beginner" && level != "intermediate"
  {
    if level == "beginner" then PersonalizationSettings(3, 30, true)
    else if level == "intermediate" then PersonalizationSettings(1, 15, false)
    else PersonalizationSettings(0, 5, false)
  }

  /** A higher level never gets a wider year margin or a longer snippet. */
  lemma SettingsMonotone(l1: string, l2: string)
    requires LevelRank(l1) <= LevelRank(l2)
    ensures SettingsFor(l2).yearMargin <= SettingsFor(l1).yearMargin
    ensures SettingsFor(l2).snippetSeconds <= SettingsFor(l1).snippetSeconds
  {
  }

  /** So higher accuracy never widens the margin or lengthens the snippet. */
  lemma SettingsByAccuracy(a: real, b: real)
    requires a <= b
    ensures SettingsFor(LevelOf(b)).yearMargin <= SettingsFor(LevelOf(a)).yearMargin
    ensures SettingsFor(LevelOf(b)).snippetSeconds <= SettingsFor(LevelOf(a)).snippetSeconds
  {
    LevelMonotone(a, b);
    SettingsMonotone(LevelOf(a), LevelOf(b));
  }
}
