/** `getYouTubeVideoId` of components/course/LessonVideoPlayer.tsx, which
    appears twice with the same regular expression: once inside the player
    effect and once in the memoised render-time value. The expression is
    `^.*(M)([^#&?]*).*` for six markers M; this module states how a
    backtracking matcher evaluates it: the leading `.*` runs up to the first
    line terminator and gives back one character at a time, so the right-most
    position before that point where a marker matches is the one used, and
    the group after it takes every following character other than `#`, `&`
    and `?`. */
module VideoId {
  import opened Wrappers
  import opened Strings

  /** The characters `.` does not match. */
  predicate IsLineTerminator(c: char) {
    c == '\n' || c == '\r' || c == '\U{2028}' || c == '\U{2029}'
  }

  /** `\w` */
  predicate IsWordChar(c: char) {
    'a' <= c <= 'z' || 'A' <= c <= 'Z' || '0' <= c <= '9' || c == '_'
  }

  /** The characters the id group stops at. */
  predicate IsStop(c: char) {
    c == '#' || c == '&' || c == '?'
  }

  /** The six alternatives of the marker group, in the expression's order. */
  datatype Marker = YoutuBe | VSlash | USlash | Embed | Watch | AmpV {
    function Length(): nat {
      match this
      case YoutuBe => 9
      case VSlash => 2
      case USlash => 4
      case Embed => 6
      case Watch => 8
      case AmpV => 3
    }
  }

  /** `s` holds `lit` at position `p`. */
  predicate LiteralAt(s: string, p: nat, lit: string) {
    p + |lit| <= |s| && s[p..p + |lit|] == lit
  }

  /** The alternative `m` matches at position `p`: `youtu.be/` with any
      character but a line terminator for the dot, `v/`, `u/` then a word
      character and `/`, `embed/`, `watch?v=` or `&v=`. */
  predicate MatchesAt(s: string, p: nat, m: Marker) {
    match m
    case YoutuBe => LiteralAt(s, p, "youtu") && p + 9 <= |s| && !IsLineTerminator(s[p + 5]) && LiteralAt(s, p + 6, "be/")
    case VSlash => LiteralAt(s, p, "v/")
    case USlash => LiteralAt(s, p, "u/") && p + 4 <= |s| && IsWordChar(s[p + 2]) && s[p + 3] == '/'
    case Embed => LiteralAt(s, p, "embed/")
    case Watch => LiteralAt(s, p, "watch?v=")
    case AmpV => LiteralAt(s, p, "&v=")
  }

  /** The first alternative that matches at `p`, trying them in order. */
  function MarkerAt(s: string, p: nat): (m: Option<Marker>)
    ensures m.Some? ==> MatchesAt(s, p, m.value) && p + m.value.Length() <= |s|
    ensures m.None? ==> forall k: Marker :: !MatchesAt(s, p, k)
  {
    if MatchesAt(s, p, YoutuBe) then Some(YoutuBe)
    else if MatchesAt(s, p, VSlash) then Some(VSlash)
    else if MatchesAt(s, p, USlash) then Some(USlash)
    else if MatchesAt(s, p, Embed) then Some(Embed)
    else if MatchesAt(s, p, Watch) then Some(Watch)
    else if MatchesAt(s, p, AmpV) then Some(AmpV)
    else None
  }

  /** The character each alternative begins with. */
  function Initial(m: Marker): char {
    match m
    case YoutuBe => 'y'
    case VSlash => 'v'
    case USlash => 'u'
    case Embed => 'e'
    case Watch => 'w'
    case AmpV => '&'
  }

  lemma MatchStartsWithInitial(s: string, p: nat, m: Marker)
    ensures MatchesAt(s, p, m) ==> p < |s| && s[p] == Initial(m)
  {
    if MatchesAt(s, p, m) {
      assert s[p..][0] == s[p];
    }
  }

  /** A literal that stands at `p` has its `i`-th character at `p + i`. */
  lemma LiteralChar(s: string, p: nat, lit: string, i: nat)
    requires i < |lit|
    ensures LiteralAt(s, p, lit) ==> s[p + i] == lit[i]
  {
    if LiteralAt(s, p, lit) {
      assert s[p..p + |lit|][i] == s[p + i];
    }
  }

  /** The alternatives begin with different characters, so at most one
      matches at a position and the order of trying them does not matter. */
  lemma MarkersExclusive(s: string, p: nat, m: Marker, k: Marker)
    requires MatchesAt(s, p, m) && MatchesAt(s, p, k)
    ensures m == k
  {
    MatchStartsWithInitial(s, p, m);
    MatchStartsWithInitial(s, p, k);
  }

  /** How far the leading `.*` can reach: the first line terminator, or the end. */
  function LineEnd(s: string, i: nat): (e: nat)
    requires i <= |s|
    ensures i <= e <= |s|
    ensures forall j | i <= j < e :: !IsLineTerminator(s[j])
    ensures e < |s| ==> IsLineTerminator(s[e])
    decreases |s| - i
  {
    if i == |s| || IsLineTerminator(s[i]) then i else LineEnd(s, i + 1)
  }

  /** The end of the id group started at `i`: the first stop character, or the end. */
  function RunEnd(s: string, i: nat): (e: nat)
    requires i <= |s|
    ensures i <= e <= |s|
    ensures forall j | i <= j < e :: !IsStop(s[j])
    ensures e < |s| ==> IsStop(s[e])
    decreases |s| - i
  {
    if i == |s| || IsStop(s[i]) then i else RunEnd(s, i + 1)
  }

  /** The backtracking of the leading `.*`: from position `p` down to 0, the
      first position where a marker matches. */
  function Backtrack(s: string, p: nat): (found: Option<nat>)
    requires p <= |s|
    ensures found.Some? ==> found.value <= p && MarkerAt(s, found.value).Some?
    decreases p
  {
    if MarkerAt(s, p).Some? then Some(p)
    else if p == 0 then None
    else Backtrack(s, p - 1)
  }

  /** `p` is the match point the expression settles on: a marker matches
      there, the `.*` before it crosses no line terminator, and no marker
      matches further right within that reach. */
  predicate RightmostMarker(s: string, p: nat) {
    && p <= LineEnd(s, 0)
    && MarkerAt(s, p).Some?
    && forall q | p < q <= LineEnd(s, 0) :: MarkerAt(s, q).None?
  }

  /** The backtracking search finds the right-most marker, and finds none
      exactly when there is none. */
  lemma {:induction false} BacktrackRightmost(s: string, p: nat)
    requires p <= |s|
    ensures Backtrack(s, p).Some? ==> forall q | Backtrack(s, p).value < q <= p :: MarkerAt(s, q).None?
    ensures Backtrack(s, p).None? ==> forall q | 0 <= q <= p :: MarkerAt(s, q).None?
    decreases p
  {
    if MarkerAt(s, p).None? && p > 0 {
      BacktrackRightmost(s, p - 1);
    }
  }

  /** The captured id group, when the expression matches. */
  function Captured(url: string): (id: Option<string>)
  {
    match Backtrack(url, LineEnd(url, 0))
    case None => None
    case Some(p) =>
      var start := p + MarkerAt(url, p).value.Length();
      Some(url[start..RunEnd(url, start)])
  }

  /** `getYouTubeVideoId(url)` (lines 76-81, and again at lines 152-157):
      the captured group when it is exactly 11 characters long, else null. */
  function GetYouTubeVideoId(url: string): (id: Option<string>)
    ensures id.Some? <==> Captured(url).Some? && |Captured(url).value| == 11
    ensures id.Some? ==> id == Captured(url)
  {
    var group := Captured(url);
    if group.Some? && |group.value| == 11 then group else None
  }

  /** What a returned id is: the characters right after the right-most
      marker, up to the next `#`, `&` or `?` or the end, eleven of them;
      none of them is a stop character, and the id occurs in the URL. */
  lemma {:induction false} ReturnedId(url: string)
    requires GetYouTubeVideoId(url).Some?
    ensures var id := GetYouTubeVideoId(url).value;
            && |id| == 11
            && (forall j | 0 <= j < |id| :: !IsStop(id[j]))
            && Contains(url, id)
            && exists p: nat :: && RightmostMarker(url, p)
                                && var start := p + MarkerAt(url, p).value.Length();
                                   && start + 11 <= |url| && url[start..start + 11] == id
                                   && (start + 11 == |url| || IsStop(url[start + 11]))
  {
    var e := LineEnd(url, 0);
    var p := Backtrack(url, e).value;
    BacktrackRightmost(url, e);
    var start := p + MarkerAt(url, p).value.Length();
    var id := url[start..RunEnd(url, start)];
    assert forall j | 0 <= j < |id| :: id[j] == url[start + j];
    ContainsAt(url, id, start);
    assert RightmostMarker(url, p);
  }

  /** The expression finds no id when no marker occurs before the first
      line terminator. */
  lemma {:induction false} NoMarkerNoId(url: string)
    requires forall q | 0 <= q <= LineEnd(url, 0) :: MarkerAt(url, q).None?
    ensures GetYouTubeVideoId(url).None?
  {
    var e := LineEnd(url, 0);
    BacktrackRightmost(url, e);
  }

  /** Conversely, the id is determined by the right-most marker: when `p`
      is that marker's position, the result is the group after it, kept only
      at length 11. */
  lemma {:induction false} IdFromRightmost(url: string, p: nat)
    requires RightmostMarker(url, p)
    ensures var start := p + MarkerAt(url, p).value.Length();
            var group := url[start..RunEnd(url, start)];
            GetYouTubeVideoId(url) == if |group| == 11 then Some(group) else None
  {
    var e := LineEnd(url, 0);
    BacktrackRightmost(url, e);
    var found := Backtrack(url, e);
    assert found.None? ==> MarkerAt(url, p).None?;
    assert found.Some? ==> found.value == p by {
      if found.Some? {
        var r := found.value;
        assert r < p ==> MarkerAt(url, p).None?;
      }
    }
  }

  /** No alternative matches where none of their initials stands. */
  lemma NoMarkerAt(s: string, q: nat)
    requires q < |s| ==> s[q] !in {'y', 'v', 'u', 'e', 'w', '&'}
    ensures MarkerAt(s, q).None?
  {
    forall m: Marker ensures !MatchesAt(s, q, m) {
      if MatchesAt(s, q, m) {
        MatchStartsWithInitial(s, q, m);
      }
    }
  }

  const SAMPLE_ID := "ABCDFGHIJKL"
  const SHORT_LINK := "https://youtu.be/" + SAMPLE_ID

  lemma ShortLinkMarker()
    ensures LineEnd(SHORT_LINK, 0) == |SHORT_LINK| == 28
    ensures MarkerAt(SHORT_LINK, 8) == Some(YoutuBe)
    ensures RunEnd(SHORT_LINK, 17) == 28
  {
    var url := SHORT_LINK;
    assert forall j | 0 <= j < |url| :: !IsLineTerminator(url[j]) && !IsStop(url[j]);
    assert url[8..13] == "youtu" && url[14..17] == "be/";
  }

  lemma ShortLinkNoLaterMarker()
    ensures forall q | 8 < q <= |SHORT_LINK| :: MarkerAt(SHORT_LINK, q).None?
  {
    var url := SHORT_LINK;
    forall q | 8 < q <= |url| ensures MarkerAt(url, q).None? {
      if q == 10 || q == 12 {
        forall m: Marker ensures !MatchesAt(url, q, m) {
          MatchStartsWithInitial(url, q, m);
          LiteralChar(url, q, "u/", 1);
        }
      } else if q == 15 {
        forall m: Marker ensures !MatchesAt(url, q, m) {
          MatchStartsWithInitial(url, q, m);
          LiteralChar(url, q, "embed/", 1);
        }
      } else if q < 17 {
        NoInitialNoMarker(url, q);
      } else {
        assert url[17..] == SAMPLE_ID;
        assert q < |url| ==> url[q] == SAMPLE_ID[q - 17];
        NoInitialNoMarker(url, q);
      }
    }
  }

  /** No alternative starts at a character that begins none of them. */
  lemma NoInitialNoMarker(s: string, p: nat)
    requires p < |s| ==> s[p] !in "yvuew&"
    ensures MarkerAt(s, p).None?
  {
    forall m: Marker ensures !MatchesAt(s, p, m) {
      MatchStartsWithInitial(s, p, m);
    }
  }

  /** A short link gives the eleven characters after `youtu.be/`. */
  lemma ShortLinkExample()
    ensures GetYouTubeVideoId(SHORT_LINK) == Some(SAMPLE_ID)
  {
    ShortLinkMarker();
    ShortLinkNoLaterMarker();
    IdFromRightmost(SHORT_LINK, 8);
    var group := SHORT_LINK[17..RunEnd(SHORT_LINK, 17)];
    assert group == SHORT_LINK[|"https://youtu.be/"|..] == SAMPLE_ID;
  }
}
