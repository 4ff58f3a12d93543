/** The Twitter source strategy: recognises status permalinks and CDN media URLs,
    picks the page URL, parses the status ID and maps the API's status record to
    the artist and commentary fields. */
module TwitterStrategy {
  import opened Wrappers
  import opened Text
  import opened TwitterPatterns

  datatype User = User(name: string, screenName: string)

  /** The attributes of a status record returned by the API. */
  datatype Status = Status(user: User, text: string)

  /** What the strategy can raise: Sources::Error, or whatever the API client raises. */
  datatype Raised =
    | SourcesError(message: string)
    | ServiceError(className: string, message: string)

  /** The Twitter API client. Its answers are fixed by two oracle functions; every
      status request it receives is logged in `requests`. */
  class TwitterService {
    const statuses: nat -> Result<Status, Raised>
    const imageUrls: string -> Result<seq<string>, Raised>
    var requests: seq<nat>

    constructor (statuses: nat -> Result<Status, Raised>, imageUrls: string -> Result<seq<string>, Raised>)
      ensures this.statuses == statuses && this.imageUrls == imageUrls
      ensures requests == []
    {
      this.statuses := statuses;
      this.imageUrls := imageUrls;
      requests := [];
    }

    /** client.status(id): one network request. */
    method Status(id: nat) returns (r: Result<Status, Raised>)
      modifies this`requests
      ensures requests == old(requests) + [id]
      ensures r == statuses(id)
    {
      requests := requests + [id];
      r := statuses(id);
    }
  }

  const PROFILE_PREFIX := "https://twitter.com/"
  const STATUS_ID_ERROR := "Couldn't get status ID from URL: "

  class Twitter {
    const url: string
    const referer: Option<string>
    const service: TwitterService

    /** @api_response: the memoised status record. */
    var apiResponse: Option<Status>

    var artistName: Option<string>
    var profileUrl: Option<string>
    var imageUrl: Option<string>
    var artistCommentaryTitle: Option<string>
    var artistCommentaryDesc: Option<string>

    constructor (url: string, referer: Option<string>, service: TwitterService)
      ensures this.url == url && this.referer == referer && this.service == service
      ensures apiResponse == None
      ensures artistName == None && profileUrl == None && imageUrl == None
      ensures artistCommentaryTitle == None && artistCommentaryDesc == None
    {
      this.url := url;
      this.referer := referer;
      this.service := service;
      apiResponse := None;
      artistName, profileUrl, imageUrl := None, None, None;
      artistCommentaryTitle, artistCommentaryDesc := None, None;
    }

    /** url_match?: the URL contains a status permalink or a CDN media URL. */
    static function UrlMatch(url: string): (r: bool)
      ensures r <==> HasPermalinkMatch(url) || HasMediaMatch(url)
    {
      ContainsPermalinkIff(url);
      ContainsMediaIff(url);
      Scan(url, Permalink) || Scan(url, Media)
    }

    /** referer_url: the referer replaces the URL only when the URL is a CDN media
        URL and the referer is a status permalink; a nil referer never matches. */
    function RefererUrl(): (r: string)
      ensures r == url || (referer == Some(r) && HasPermalinkMatch(r))
      ensures r != url ==> HasMediaMatch(url)
      ensures (referer.Some? && HasPermalinkMatch(referer.value) && HasMediaMatch(url)) ==> Some(r) == referer
      ensures !(referer.Some? && HasPermalinkMatch(referer.value) && HasMediaMatch(url)) ==> r == url
    {
      if referer.Some? && Scan(referer.value, Permalink) && Scan(url, Media) then
        ContainsPermalinkIff(referer.value);
        ContainsMediaIff(url);
        referer.value
      else
        ContainsMediaIff(url);
        if referer.Some? then ContainsPermalinkIff(referer.value); url else url
    }

    function Tags(): (r: seq<string>)
      ensures |r| == 0
    {
      []
    }

    function SiteName(): (r: string)
      ensures r == "Twitter"
    {
      "Twitter"
    }

    /** status_id_from_url: the digits after "/status/" of the first line that starts
        with a permalink, as a number; Sources::Error if no line does. */
    static function StatusIdFromUrl(url: string): (r: Result<nat, Raised>)
      ensures r.Failure? <==> !HasAnchoredMatch(url)
      ensures r.Failure? ==> r.error == SourcesError(STATUS_ID_ERROR + url)
    {
      AnchoredMatchIff(url);
      match FirstLineMatch(url, 0, Permalink)
      case None => Failure(SourcesError(STATUS_ID_ERROR + url))
      case Some(i) => Success(StatusIdAt(url, i))
    }

    /** `$1.to_i` for a match at line start `i`: the value of the digit run that
        begins where the matcher found the status ID. */
    static function StatusIdAt(url: string, i: nat): nat
      requires i <= |url| && PermalinkAt(url[i..])
    {
      var k := i + StatusDigitsAt(url[i..]).value;
      DecimalValue(DigitRunPrefix(url[k..]))
    }

    /** What api_response yields when the cache holds `cached`: the status-ID parse
        runs first every time; then the cached record, or the API's answer. */
    function ResponseOutcome(cached: Option<Status>): Result<Status, Raised> {
      match StatusIdFromUrl(url)
      case Failure(e) => Failure(e)
      case Success(id) => if cached.Some? then Success(cached.value) else service.statuses(id)
    }

    /** api_response: parse the status ID (which may raise) and query the API only
        when nothing is cached; a failed query caches nothing. */
    method ApiResponse() returns (r: Result<Status, Raised>)
      modifies this`apiResponse, service`requests
      ensures r == ResponseOutcome(old(apiResponse))
      ensures old(apiResponse).Some? ==> apiResponse == old(apiResponse)
      ensures old(apiResponse).None? ==> apiResponse == (if r.Success? then Some(r.value) else None)
      ensures service.requests == old(service.requests) +
        (if StatusIdFromUrl(url).Success? && old(apiResponse).None? then [StatusIdFromUrl(url).value] else [])
    {
      var statusId := StatusIdFromUrl(url);
      if statusId.Failure? {
        return Failure(statusId.error);
      }
      if apiResponse.None? {
        var answer := service.Status(statusId.value);
        if answer.Failure? {
          return answer;
        }
        apiResponse := Some(answer.value);
      }
      r := Success(apiResponse.value);
    }

    /** get: fills in the artist, profile, image and commentary fields from the
        status record; image_urls asks the API client for the images of `url`.
        If image_urls raises, the artist name and profile URL have already been
        assigned. */
    method Get() returns (raised: Option<Raised>)
      modifies this`apiResponse, this`artistName, this`profileUrl, this`imageUrl,
        this`artistCommentaryTitle, this`artistCommentaryDesc, service`requests
      ensures var outcome := ResponseOutcome(old(apiResponse));
        match outcome
        case Failure(e) =>
          && raised == Some(e)
          && artistName == old(artistName) && profileUrl == old(profileUrl) && imageUrl == old(imageUrl)
          && artistCommentaryTitle == old(artistCommentaryTitle) && artistCommentaryDesc == old(artistCommentaryDesc)
        case Success(status) =>
          && apiResponse == Some(status)
          && artistName == Some(status.user.name)
          && profileUrl == Some(PROFILE_PREFIX + status.user.screenName)
          && match service.imageUrls(url)
             case Failure(e) =>
               && raised == Some(e)
               && imageUrl == old(imageUrl)
               && artistCommentaryTitle == old(artistCommentaryTitle) && artistCommentaryDesc == old(artistCommentaryDesc)
             case Success(images) =>
               && raised == None
               && imageUrl == First(images)
               && artistCommentaryTitle == Some("")
               && artistCommentaryDesc == Some(status.text)
      ensures old(apiResponse).Some? ==> apiResponse == old(apiResponse)
      ensures old(apiResponse).None? ==>
        apiResponse == (if ResponseOutcome(None).Success? then Some(ResponseOutcome(None).value) else None)
      ensures service.requests == old(service.requests) +
        (if StatusIdFromUrl(url).Success? && old(apiResponse).None? then [StatusIdFromUrl(url).value] else [])
    {
      var response := ApiResponse();
      if response.Failure? {
        return Some(response.error);
      }
      raised := AssignAttributes(response.value);
    }

    /** The assignments of get once the status record is in hand. */
    method AssignAttributes(status: Status) returns (raised: Option<Raised>)
      modifies this`artistName, this`profileUrl, this`imageUrl, this`artistCommentaryTitle, this`artistCommentaryDesc
      ensures artistName == Some(status.user.name)
      ensures profileUrl == Some(PROFILE_PREFIX + status.user.screenName)
      ensures match service.imageUrls(url)
        case Failure(e) =>
          && raised == Some(e)
          && imageUrl == old(imageUrl)
          && artistCommentaryTitle == old(artistCommentaryTitle) && artistCommentaryDesc == old(artistCommentaryDesc)
        case Success(images) =>
          && raised == None
          && imageUrl == First(images)
          && artistCommentaryTitle == Some("")
          && artistCommentaryDesc == Some(status.text)
    {
      artistName := Some(status.user.name);
      profileUrl := Some(PROFILE_PREFIX + status.user.screenName);
      var images := service.imageUrls(url);
      if images.Failure? {
        return Some(images.error);
      }
      imageUrl := First(images.value);
      artistCommentaryTitle := Some("");
      artistCommentaryDesc := Some(status.text);
      raised := None;
    }

    /** normalize_for_artist_finder!: the URL, lowercased. */
    function NormalizeForArtistFinder(): (r: string)
      ensures |r| == |url|
      ensures forall i :: 0 <= i < |url| ==> r[i] == LowerChar(url[i])
      ensures Lower(r) == r
    {
      LowerIdempotent(url);
      Lower(url)
    }

    function NormalizableForArtistFinder(): (r: bool)
      ensures r
    {
      true
    }
  }

  /** A URL that starts with a permalink yields the value of the whole digit run
      after "/status/", whatever follows it that is not a digit. */
  lemma StatusIdOfPermalink(scheme: string, sub: string, handle: string, id: string, rest: string)
    requires PermalinkShape(scheme, sub, handle, id)
    requires rest == [] || !IsDigit(rest[0])
    ensures Twitter.StatusIdFromUrl(PermalinkText(scheme, sub, handle, id) + rest) == Success(DecimalValue(id))
  {
    var url := PermalinkText(scheme, sub, handle, id) + rest;
    var k := PermalinkAtStart(scheme, sub, handle, id, rest);
    DigitRunPrefixOf(id, rest);
    StatusIdAtStart(url, k);
  }

  /** A permalink on a later line, with no permalink at the start of an earlier
      line, yields the value of its whole digit run, as `^` matches after any "\n". */
  lemma StatusIdOfLine(before: string, scheme: string, sub: string, handle: string, id: string, rest: string)
    requires before == [] || before[|before| - 1] == '\n'
    requires PermalinkShape(scheme, sub, handle, id)
    requires rest == [] || !IsDigit(rest[0])
    requires var url := before + (PermalinkText(scheme, sub, handle, id) + rest);
      forall j :: 0 <= j < |before| && LineStart(url, j) ==> !StartsWithPermalink(url[j..])
    ensures Twitter.StatusIdFromUrl(before + (PermalinkText(scheme, sub, handle, id) + rest)) == Success(DecimalValue(id))
  {
    var tail := PermalinkText(scheme, sub, handle, id) + rest;
    var url := before + tail;
    var i := |before|;
    var k := PermalinkAtStart(scheme, sub, handle, id, rest);
    DigitRunPrefixOf(id, rest);
    assert url[i..] == tail;
    assert url[i + k..] == tail[k..];
    NoEarlierLineMatch(url, i);
    LaterLineMatch(url, i, k);
  }

  /** The matching line is the one at `i` when no earlier line start is accepted by
      the matcher, and the ID is read from where the permalink's digits begin. */
  lemma LaterLineMatch(url: string, i: nat, k: nat)
    requires i <= |url| && LineStart(url, i)
    requires StatusDigitsAt(url[i..]) == Some(k)
    requires forall j :: 0 <= j < i && LineStart(url, j) ==> !At(url[j..], Permalink)
    ensures i + k <= |url|
    ensures Twitter.StatusIdFromUrl(url) == Success(DecimalValue(DigitRunPrefix(url[i + k..])))
  {
    FirstLineMatchIs(url, i, Permalink);
    StatusIdAtLine(url, i, k);
  }

  /** No earlier line start accepted by the matcher when none starts with a permalink. */
  lemma NoEarlierLineMatch(url: string, i: nat)
    requires i <= |url|
    requires forall j :: 0 <= j < i && LineStart(url, j) ==> !StartsWithPermalink(url[j..])
    ensures forall j :: 0 <= j < i && LineStart(url, j) ==> !At(url[j..], Permalink)
  {
    forall j | 0 <= j < i && LineStart(url, j) ensures !At(url[j..], Permalink) {
      PermalinkAtIff(url[j..]);
    }
  }

  lemma StatusIdAtLine(url: string, i: nat, k: nat)
    requires i <= |url| && FirstLineMatch(url, 0, Permalink) == Some(i)
    requires StatusDigitsAt(url[i..]) == Some(k)
    ensures i + k <= |url|
    ensures Twitter.StatusIdFromUrl(url) == Success(DecimalValue(DigitRunPrefix(url[i + k..])))
  {
    StatusIdFromLine(url, i);
    StatusIdAtIs(url, i, k);
  }

  lemma StatusIdAtIs(url: string, i: nat, k: nat)
    requires i <= |url| && PermalinkAt(url[i..]) && StatusDigitsAt(url[i..]) == Some(k)
    ensures i + k <= |url|
    ensures Twitter.StatusIdAt(url, i) == DecimalValue(DigitRunPrefix(url[i + k..]))
  {
  }

  lemma StatusIdFromLine(url: string, i: nat)
    requires i <= |url| && FirstLineMatch(url, 0, Permalink) == Some(i)
    ensures PermalinkAt(url[i..])
    ensures Twitter.StatusIdFromUrl(url) == Success(Twitter.StatusIdAt(url, i))
  {
  }

  lemma StatusIdAtStart(url: string, k: nat)
    requires FirstLineMatch(url, 0, Permalink) == Some(0)
    requires StatusDigitsAt(url) == Some(k)
    ensures Twitter.StatusIdFromUrl(url) == Success(DecimalValue(DigitRunPrefix(url[k..])))
  {
    assert url[0..] == url;
  }

  /** A CDN media URL on a single line has no status ID. */
  lemma MediaUrlHasNoStatusId(url: string)
    requires MediaAt(url)
    requires forall i :: 0 <= i < |url| ==> url[i] != '\n'
    ensures Twitter.StatusIdFromUrl(url) == Failure(SourcesError(STATUS_ID_ERROR + url))
  {
    MediaIsNotPermalink(url);
    assert url[0..] == url;
  }

  /** The permalink of the worked example: https://twitter.com/alice/status/123456. */
  lemma ExampleStatusId()
    ensures Twitter.StatusIdFromUrl("https://twitter.com/alice/status/123456") == Success(123456)
  {
    var id := "123456";
    assert AllDigits(id);
    assert PermalinkShape("https://", "", "alice", id);
    ExampleText();
    StatusIdOfPermalink("https://", "", "alice", id, "");
    ExampleValue();
  }

  lemma ExampleText()
    ensures PermalinkText("https://", "", "alice", "123456") + "" == "https://twitter.com/alice/status/123456"
  {
  }

  lemma ExampleValue()
    ensures DecimalValue("123456") == 123456
  {
    assert "123456"[..5] == "12345";
    assert "12345"[..4] == "1234";
    assert "1234"[..3] == "123";
    assert "123"[..2] == "12";
    assert "12"[..1] == "1";
    assert "1"[..0] == "";
  }

  /** Querying twice through one strategy reaches the API once when the first
      query succeeds. */
  method ApiResponseTwice(strategy: Twitter) returns (first: Result<Status, Raised>, second: Result<Status, Raised>)
    requires strategy.apiResponse == None
    modifies strategy`apiResponse, strategy.service`requests
    ensures first.Success? ==> second == first
    ensures first.Success? ==> |strategy.service.requests| == |old(strategy.service.requests)| + 1
  {
    first := strategy.ApiResponse();
    second := strategy.ApiResponse();
  }
}
