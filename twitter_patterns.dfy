/** The three fixed regular expressions of the Twitter strategy, as hand-written
    matchers, each proved equal to a declarative description of what its pattern
    matches:

      permalink  https?://(?:mobile\.)?twitter\.com/\w+/status/\d+
      media      https?://pbs\.twimg\.com/media/
      anchored   ^https?://(?:mobile\.)?twitter\.com/\w+/status/(\d+)

    `=~` finds the leftmost position where the pattern matches; with `^` that
    position must start a line (the start of the string or just after a "\n"). */
module TwitterPatterns {
  import opened Wrappers
  import opened Text

  // ---------------------------------------------------------------------------
  // Matchers

  /** Length of the `https?://` at the start of `t`, if any. */
  function SchemeEnd(t: string): (r: Option<nat>)
    ensures r.Some? ==> r.value <= |t|
  {
    if HasPrefix(t, "https://") then Some(8)
    else if HasPrefix(t, "http://") then Some(7)
    else None
  }

  /** The host of a status page, with the slash that ends it. */
  const TWITTER_HOST := "twitter.com/"

  /** Length of the `(?:mobile\.)?twitter\.com/` at the start of `t`, if any. */
  function HostEnd(t: string): (r: Option<nat>)
    ensures r.Some? ==> r.value <= |t|
  {
    if HasPrefix(t, "mobile." + TWITTER_HOST) then Some(19)
    else if HasPrefix(t, TWITTER_HOST) then Some(12)
    else None
  }

  /** If `\w+/status/\d+` matches at the start of `v`, the index in `v` of the first
      digit of the status ID. The handle can only end where a non-word character
      begins, so it is the leading run of word characters. */
  function HandleStatusAt(v: string): (r: Option<nat>)
    ensures r.Some? ==> r.value < |v|
  {
    var w := LeadingRun(v, Word);
    if 0 < w && HasPrefix(v[w..], "/status/") && w + 8 < |v| && IsDigit(v[w + 8])
    then Some(w + 8)
    else None
  }

  /** If the permalink pattern matches at the start of `t`, the index in `t` of the
      first digit of the status ID. */
  function StatusDigitsAt(t: string): (r: Option<nat>)
    ensures r.Some? ==> r.value < |t|
  {
    match SchemeEnd(t)
    case None => None
    case Some(a) =>
      match HostEnd(t[a..])
      case None => None
      case Some(b) =>
        match HandleStatusAt(t[a + b..])
        case None => None
        case Some(k) => Some(a + b + k)
  }

  predicate PermalinkAt(t: string) {
    StatusDigitsAt(t).Some?
  }

  /** The host and path of an image URL, after its scheme. */
  const MEDIA_PATH := "pbs.twimg.com/media/"

  /** `https?://pbs\.twimg\.com/media/` matches at the start of `t`. */
  predicate MediaAt(t: string) {
    HasPrefix(t, "https://" + MEDIA_PATH) || HasPrefix(t, "http://" + MEDIA_PATH)
  }

  /** The two patterns searched for. */
  datatype Pattern = Permalink | Media

  predicate At(t: string, pat: Pattern) {
    match pat
    case Permalink => PermalinkAt(t)
    case Media => MediaAt(t)
  }

  /** Some suffix of `s` (possibly `s` itself or the empty one) starts with a match
      of `pat`: an unanchored search. */
  predicate Scan(s: string, pat: Pattern) {
    At(s, pat) || (s != [] && Scan(s[1..], pat))
  }

  predicate LineStart(s: string, i: nat)
    requires i <= |s|
  {
    i == 0 || s[i - 1] == '\n'
  }

  /** The leftmost line start at or after `i` where `pat` matches the rest of `s`:
      the search `=~` makes for a pattern that begins with `^`. */
  function FirstLineMatch(s: string, i: nat, pat: Pattern): (r: Option<nat>)
    requires i <= |s|
    decreases |s| - i
    ensures r.Some? ==> i <= r.value <= |s| && LineStart(s, r.value) && At(s[r.value..], pat)
    ensures forall j :: i <= j <= |s| && (r.None? || j < r.value) && LineStart(s, j) ==> !At(s[j..], pat)
  {
    if LineStart(s, i) && At(s[i..], pat) then Some(i)
    else if i == |s| then None
    else FirstLineMatch(s, i + 1, pat)
  }

  /** The leftmost line start where `pat` matches is the one at `i` when no earlier
      line start matches. */
  lemma FirstLineMatchIs(s: string, i: nat, pat: Pattern)
    requires i <= |s| && LineStart(s, i) && At(s[i..], pat)
    requires forall j :: 0 <= j < i && LineStart(s, j) ==> !At(s[j..], pat)
    ensures FirstLineMatch(s, 0, pat) == Some(i)
  {
  }

  /** A URL that starts with a permalink matches on its first line, and its status
      ID starts at index `k`. */
  lemma PermalinkAtStart(scheme: string, sub: string, handle: string, id: string, rest: string) returns (k: nat)
    requires PermalinkShape(scheme, sub, handle, id)
    ensures var url := PermalinkText(scheme, sub, handle, id) + rest;
      && FirstLineMatch(url, 0, Permalink) == Some(0)
      && StatusDigitsAt(url) == Some(k) && k <= |url| && url[k..] == id + rest
  {
    var text := PermalinkText(scheme, sub, handle, id);
    var url := text + rest;
    k := |scheme| + |sub| + 12 + |handle| + 8;
    HasPrefixIff(url, text);
    StatusDigitsAtComplete(url, scheme, sub, handle, id);
    FirstLineMatchAtStart(url, Permalink);
    PermalinkTail(scheme, sub, handle, id, rest);
  }

  lemma PermalinkTail(scheme: string, sub: string, handle: string, id: string, rest: string)
    ensures (PermalinkText(scheme, sub, handle, id) + rest)[|scheme| + |sub| + 12 + |handle| + 8..] == id + rest
  {
    PermalinkTextSplit(scheme, sub, handle, id);
    var head := PermalinkHead(scheme, sub, handle);
    assert head + id + rest == head + (id + rest);
    assert (head + (id + rest))[|head|..] == id + rest;
  }

  /** A match at the very start is the leftmost line-start match. */
  lemma FirstLineMatchAtStart(s: string, pat: Pattern)
    requires At(s, pat)
    ensures FirstLineMatch(s, 0, pat) == Some(0)
  {
    assert s[0..] == s;
  }

  // ---------------------------------------------------------------------------
  // What the patterns match, stated declaratively

  /** The pieces of a permalink match: "http://" or "https://", an optional
      "mobile.", a non-empty handle of word characters and a non-empty run of digits. */
  predicate PermalinkShape(scheme: string, sub: string, handle: string, id: string) {
    && (scheme == "http://" || scheme == "https://")
    && (sub == "" || sub == "mobile.")
    && |handle| > 0 && AllWordChars(handle)
    && |id| > 0 && AllDigits(id)
  }

  function PermalinkText(scheme: string, sub: string, handle: string, id: string): string {
    scheme + (sub + (TWITTER_HOST + (handle + ("/status/" + id))))
  }

  /** Everything before the status ID. */
  function PermalinkHead(scheme: string, sub: string, handle: string): string {
    scheme + sub + TWITTER_HOST + handle + "/status/"
  }

  lemma PermalinkTextSplit(scheme: string, sub: string, handle: string, id: string)
    ensures PermalinkText(scheme, sub, handle, id) == PermalinkHead(scheme, sub, handle) + id
    ensures |PermalinkHead(scheme, sub, handle)| == |scheme| + |sub| + 12 + |handle| + 8
  {
  }

  ghost predicate StartsWithPermalink(t: string) {
    exists scheme, sub, handle, id ::
      PermalinkShape(scheme, sub, handle, id) && HasPrefix(t, PermalinkText(scheme, sub, handle, id))
  }

  ghost predicate HasPermalinkMatch(s: string) {
    exists i :: 0 <= i <= |s| && StartsWithPermalink(s[i..])
  }

  ghost predicate HasMediaMatch(s: string) {
    exists i :: 0 <= i <= |s| && MediaAt(s[i..])
  }

  ghost predicate HasAnchoredMatch(s: string) {
    exists i :: 0 <= i <= |s| && LineStart(s, i) && StartsWithPermalink(s[i..])
  }

  // ---------------------------------------------------------------------------
  // The matchers agree with the descriptions

  lemma {:induction false} ScanIsSomeSuffix(s: string, pat: Pattern)
    ensures Scan(s, pat) <==> exists i :: 0 <= i <= |s| && At(s[i..], pat)
  {
    if At(s, pat) {
      assert s[0..] == s;
    } else if s == [] {
      forall i | 0 <= i <= |s| ensures !At(s[i..], pat) {
        assert s[i..] == s;
      }
    } else {
      ScanIsSomeSuffix(s[1..], pat);
      if Scan(s[1..], pat) {
        var j :| 0 <= j <= |s[1..]| && At(s[1..][j..], pat);
        assert s[1..][j..] == s[j + 1..];
      } else {
        forall i | 0 <= i <= |s| ensures !At(s[i..], pat) {
          if i > 0 {
            assert s[i..] == s[1..][i - 1..];
          }
        }
      }
    }
  }

  lemma SchemeEndSound(t: string) returns (scheme: string)
    requires SchemeEnd(t).Some?
    ensures (scheme == "http://" || scheme == "https://") && HasPrefix(t, scheme)
    ensures SchemeEnd(t) == Some(|scheme|)
  {
    scheme := if HasPrefix(t, "https://") then "https://" else "http://";
  }

  lemma SchemeEndComplete(t: string, scheme: string, rest: string)
    requires scheme == "http://" || scheme == "https://"
    requires HasPrefix(t, scheme + rest)
    ensures SchemeEnd(t) == Some(|scheme|) && HasPrefix(t[|scheme|..], rest)
  {
    PrefixSplit(t, scheme, rest);
    if scheme == "http://" {
      HasPrefixIff(t, "http://");
      HasPrefixIff(t, "https://");
      assert t[4] == ':';
    }
  }

  lemma HostEndSound(u: string) returns (sub: string)
    requires HostEnd(u).Some?
    ensures (sub == "" || sub == "mobile.") && HasPrefix(u, sub + TWITTER_HOST)
    ensures HostEnd(u) == Some(|sub| + 12)
  {
    if HasPrefix(u, "mobile." + TWITTER_HOST) {
      sub := "mobile.";
    } else {
      sub := "";
      assert sub + TWITTER_HOST == TWITTER_HOST;
    }
  }

  lemma HostEndComplete(u: string, sub: string, rest: string)
    requires sub == "" || sub == "mobile."
    requires HasPrefix(u, sub + (TWITTER_HOST + rest))
    ensures HostEnd(u) == Some(|sub| + 12) && HasPrefix(u[|sub| + 12..], rest)
  {
    PrefixSplit(u, sub, TWITTER_HOST + rest);
    PrefixSplit(u[|sub|..], TWITTER_HOST, rest);
    assert u[|sub|..][12..] == u[|sub| + 12..];
    if sub == "mobile." {
      PrefixSplit(u, "mobile.", TWITTER_HOST);
    }
  }

  lemma HandleStatusSound(v: string) returns (handle: string, id: string)
    requires HandleStatusAt(v).Some?
    ensures |handle| > 0 && AllWordChars(handle) && |id| > 0 && AllDigits(id)
    ensures HasPrefix(v, handle + ("/status/" + id))
    ensures HandleStatusAt(v) == Some(|handle| + 8)
  {
    var w := LeadingRun(v, Word);
    handle := v[..w];
    id := [v[w + 8]];
    assert AllWordChars(handle) by {
      forall i | 0 <= i < w ensures IsWordChar(handle[i]) {
        assert handle[i] == v[i];
      }
    }
    HasPrefixIff(v, handle);
    assert v[w..][8..] == v[w + 8..];
    PrefixSplit(v[w..], "/status/", id);
    PrefixSplit(v, handle, "/status/" + id);
  }

  lemma HandleStatusComplete(v: string, handle: string, id: string)
    requires |handle| > 0 && AllWordChars(handle) && |id| > 0 && AllDigits(id)
    requires HasPrefix(v, handle + ("/status/" + id))
    ensures HandleStatusAt(v) == Some(|handle| + 8)
  {
    PrefixSplit(v, handle, "/status/" + id);
    PrefixSplit(v[|handle|..], "/status/", id);
    HasPrefixIff(v, handle);
    assert v[|handle|] == '/';
    LeadingRunIs(v, Word, handle);
    assert v[|handle|..][8..] == v[|handle| + 8..];
    assert v[|handle| + 8] == id[0];
  }

  /** Every match the matcher reports is a permalink of the declared shape. */
  lemma StatusDigitsAtSound(t: string)
    requires StatusDigitsAt(t).Some?
    ensures StartsWithPermalink(t)
  {
    var scheme := SchemeEndSound(t);
    var u := t[|scheme|..];
    var sub := HostEndSound(u);
    var v := t[|scheme| + |sub| + 12..];
    assert v == u[|sub| + 12..];
    var handle, id := HandleStatusSound(v);
    HostTailSound(u, sub, handle + ("/status/" + id));
    PrefixSplit(t, scheme, sub + (TWITTER_HOST + (handle + ("/status/" + id))));
    assert PermalinkShape(scheme, sub, handle, id);
  }

  lemma HostTailSound(u: string, sub: string, tail: string)
    requires |sub| + 12 <= |u|
    requires HasPrefix(u, sub + TWITTER_HOST) && HasPrefix(u[|sub| + 12..], tail)
    ensures HasPrefix(u, sub + (TWITTER_HOST + tail))
  {
    PrefixSplit(u, sub, TWITTER_HOST);
    assert u[|sub|..][12..] == u[|sub| + 12..];
    PrefixSplit(u[|sub|..], TWITTER_HOST, tail);
    PrefixSplit(u, sub, TWITTER_HOST + tail);
  }

  /** Every text of the declared shape is recognised, and the status ID is found
      right after "/status/". */
  lemma StatusDigitsAtComplete(t: string, scheme: string, sub: string, handle: string, id: string)
    requires PermalinkShape(scheme, sub, handle, id)
    requires HasPrefix(t, PermalinkText(scheme, sub, handle, id))
    ensures StatusDigitsAt(t) == Some(|scheme| + |sub| + 12 + |handle| + 8)
  {
    SchemeEndComplete(t, scheme, sub + (TWITTER_HOST + (handle + ("/status/" + id))));
    SchemeTailComplete(t, |scheme|, sub, handle, id);
  }

  lemma SchemeTailComplete(t: string, a: nat, sub: string, handle: string, id: string)
    requires SchemeEnd(t) == Some(a) && a <= |t|
    requires sub == "" || sub == "mobile."
    requires |handle| > 0 && AllWordChars(handle) && |id| > 0 && AllDigits(id)
    requires HasPrefix(t[a..], sub + (TWITTER_HOST + (handle + ("/status/" + id))))
    ensures StatusDigitsAt(t) == Some(a + (|sub| + 12) + (|handle| + 8))
  {
    var b, k := |sub| + 12, |handle| + 8;
    assert HostEnd(t[a..]) == Some(b) && HandleStatusAt(t[a + b..]) == Some(k) by {
      HostTailComplete(t[a..], sub, handle, id);
      assert t[a..][b..] == t[a + b..];
    }
    StatusDigitsAtOf(t, a, b, k);
  }

  lemma HostTailComplete(u: string, sub: string, handle: string, id: string)
    requires sub == "" || sub == "mobile."
    requires |handle| > 0 && AllWordChars(handle) && |id| > 0 && AllDigits(id)
    requires HasPrefix(u, sub + (TWITTER_HOST + (handle + ("/status/" + id))))
    ensures HostEnd(u) == Some(|sub| + 12) && HandleStatusAt(u[|sub| + 12..]) == Some(|handle| + 8)
  {
    HostEndComplete(u, sub, handle + ("/status/" + id));
    HandleStatusComplete(u[|sub| + 12..], handle, id);
  }

  lemma StatusDigitsAtOf(t: string, a: nat, b: nat, k: nat)
    requires SchemeEnd(t) == Some(a) && a <= |t|
    requires HostEnd(t[a..]) == Some(b) && a + b <= |t|
    requires HandleStatusAt(t[a + b..]) == Some(k)
    ensures StatusDigitsAt(t) == Some(a + b + k)
  {
  }

  lemma PermalinkAtIff(t: string)
    ensures PermalinkAt(t) <==> StartsWithPermalink(t)
  {
    if PermalinkAt(t) {
      StatusDigitsAtSound(t);
    }
    if StartsWithPermalink(t) {
      var scheme, sub, handle, id :|
        PermalinkShape(scheme, sub, handle, id) && HasPrefix(t, PermalinkText(scheme, sub, handle, id));
      StatusDigitsAtComplete(t, scheme, sub, handle, id);
    }
  }

  /** The permalink search reports a match exactly when the pattern matches somewhere. */
  lemma ContainsPermalinkIff(s: string)
    ensures Scan(s, Permalink) <==> HasPermalinkMatch(s)
  {
    ScanIsSomeSuffix(s, Permalink);
    forall i | 0 <= i <= |s| ensures PermalinkAt(s[i..]) <==> StartsWithPermalink(s[i..]) {
      PermalinkAtIff(s[i..]);
    }
  }

  lemma ContainsMediaIff(s: string)
    ensures Scan(s, Media) <==> HasMediaMatch(s)
  {
    ScanIsSomeSuffix(s, Media);
  }

  /** The anchored search finds nothing exactly when no line of `s` starts with a permalink. */
  lemma AnchoredMatchIff(s: string)
    ensures FirstLineMatch(s, 0, Permalink).Some? <==> HasAnchoredMatch(s)
  {
    if FirstLineMatch(s, 0, Permalink).Some? {
      var i := FirstLineMatch(s, 0, Permalink).value;
      PermalinkAtIff(s[i..]);
    } else if HasAnchoredMatch(s) {
      var i :| 0 <= i <= |s| && LineStart(s, i) && StartsWithPermalink(s[i..]);
      PermalinkAtIff(s[i..]);
      assert false;
    }
  }

  /** A CDN media URL has no permalink at its start: after the scheme comes "pbs.",
      not "twitter.com/" or "mobile.". */
  lemma MediaIsNotPermalink(t: string)
    requires MediaAt(t)
    ensures !StartsWithPermalink(t)
  {
    var a := MediaSchemeEnd(t);
    assert t[a..][0] == 'p';
    PermalinkAtIff(t);
  }

  lemma MediaSchemeEnd(t: string) returns (a: nat)
    requires MediaAt(t)
    ensures SchemeEnd(t) == Some(a) && a < |t| && t[a] == 'p'
  {
    if HasPrefix(t, "https://" + MEDIA_PATH) {
      PrefixSplit(t, "https://", MEDIA_PATH);
      a := 8;
    } else {
      PrefixSplit(t, "http://", MEDIA_PATH);
      HasPrefixIff(t, "http://");
      HasPrefixIff(t, "https://");
      a := 7;
    }
  }
}
