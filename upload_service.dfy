/** The upload pipeline: `start!` turns a submission into an Upload record and,
    through file acquisition and processing, into a Post with its dependent
    records. The collaborators it calls (the preprocessor, file utilities,
    persistence, the strategy registry) are opaque: their answers are fixed by
    the oracle functions in `Collaborators`, and any of them may raise. */
module UploadPipeline {
  import opened Wrappers
  import opened Text

  type UserId = nat
  type FileRef = string

  /** A JSON value, as stored in an upload's `context`. */
  datatype Json =
    | Null
    | Bool(b: bool)
    | Number(n: int)
    | Str(s: string)
    | Array(items: seq<Json>)
    | Object(fields: map<string, Json>)

  /** Ruby truthiness: everything except nil and false, so every number, string,
      array and hash is truthy, zero and empty ones included. */
  function Truthy(j: Json): (r: bool)
    ensures j.Bool? ==> (r <==> j.b)
    ensures j.Number? || j.Str? || j.Array? || j.Object? ==> r
    ensures j.Null? ==> !r
  {
    !(j.Null? || j == Bool(false))
  }

  /** A raised Ruby exception: its class name, message and backtrace lines. */
  datatype Exception = Exception(className: string, message: string, backtrace: seq<string>)

  /** The exception `v[key]` raises for a string key when `v` is neither a hash nor
      a string: nil, true and false have no `[]`, and the `[]` of an Integer or an
      Array takes no string. */
  function IndexError(v: Json): (x: Exception)
    requires !v.Object? && !v.Str?
    ensures v.Null? || v.Bool? ==> x.className == "NoMethodError"
    ensures v.Number? || v.Array? ==> x.className == "TypeError"
  {
    match v
    case Null => Exception("NoMethodError", "undefined method `[]' for nil:NilClass", [])
    case Bool(b) => Exception("NoMethodError", "undefined method `[]' for " + (if b then "true:TrueClass" else "false:FalseClass"), [])
    case _ => Exception("TypeError", "no implicit conversion of String into Integer", [])
  }

  /** `v[key]` with a string key: a hash gives the value stored under `key`, or nil;
      a string gives `key` when it occurs in it, or nil; any other value raises. */
  function Index(v: Json, key: string): (r: Result<Json, Exception>)
    ensures r.Success? <==> v.Object? || v.Str?
    ensures v.Object? ==> r == Success(if key in v.fields then v.fields[key] else Null)
    ensures v.Str? ==> r == Success(Str(key)) || r == Success(Null)
    ensures v.Str? ==> (r == Success(Str(key)) <==> exists i :: 0 <= i <= |v.s| && key <= v.s[i..])
    ensures r.Failure? ==> r.error == IndexError(v)
  {
    match v
    case Object(fields) => Success(if key in fields then fields[key] else Null)
    case Str(s) =>
      OccursIff(key, s);
      Success(if Occurs(key, s) then Str(key) else Null)
    case _ => Failure(IndexError(v))
  }

  const RECORD_NOT_UNIQUE := "ActiveRecord::RecordNotUnique"
  const DEFAULT_RATING := "q"
  const DEFAULT_TAG_STRING := "tagme"
  const RESTART_DELAY_SECONDS := 5

  /** The status written when an exception is caught: it starts with "error: " and
      ends with the exception's message. */
  function ErrorStatus(x: Exception): (s: string)
    ensures "error: " <= s
    ensures |s| == 10 + |x.className| + |x.message| && s[|s| - |x.message|..] == x.message
  {
    var s := "error: " + x.className + " - " + x.message;
    assert s[|s| - |x.message|..] == x.message;
    s
  }

  /** The submitted attributes of an upload (the `params` hash). */
  datatype Params = Params(
    source: Option<string>,
    refererUrl: Option<string>,
    file: Option<FileRef>,
    rating: Option<string>,
    tagString: Option<string>,
    parentId: Option<nat>,
    uploaderId: UserId,
    uploaderIpAddr: string,
    uploaderCanUploadFree: bool,
    uploadAsPending: bool,
    includeArtistCommentary: bool,
    artistCommentaryTitle: Option<string>,
    artistCommentaryDesc: Option<string>,
    translatedCommentaryTitle: Option<string>,
    translatedCommentaryDesc: Option<string>,
    addCommentaryTag: bool,
    addCommentaryRequestTag: bool,
    addCommentaryCheckTag: bool,
    addPartialCommentaryTag: bool)

  /** The attributes file processing fills in. */
  datatype Media = Media(
    md5: Option<string>,
    fileExt: Option<string>,
    imageWidth: Option<nat>,
    imageHeight: Option<nat>,
    fileSize: Option<nat>,
    context: Option<map<string, Json>>)

  const NO_MEDIA := Media(None, None, None, None, None, None)

  /** The fields of a Post that convert_to_post writes. `source == None` means the
      field was left at its default; `addedTags` holds the tags added with add_tag. */
  datatype PostFields = PostFields(
    hasCropped: bool,
    tagString: Option<string>,
    md5: Option<string>,
    fileExt: Option<string>,
    imageWidth: Option<nat>,
    imageHeight: Option<nat>,
    rating: Option<string>,
    source: Option<string>,
    fileSize: Option<nat>,
    uploaderId: UserId,
    uploaderIpAddr: string,
    parentId: Option<nat>,
    isPending: bool,
    addedTags: set<string>)

  /** A Post: its fields, its id once saved, and the warnings saving produced. */
  datatype Post = Post(fields: PostFields, id: Option<nat>, warnings: seq<string>)

  /** What a successful Post#save! reports. */
  datatype SavedPost = SavedPost(id: nat, warnings: seq<string>)

  datatype FrameData = FrameData(postId: nat, data: Json, contentType: Json)

  datatype ArtistCommentary = ArtistCommentary(
    postId: nat,
    originalTitle: Option<string>,
    originalDescription: Option<string>,
    translatedTitle: Option<string>,
    translatedDescription: Option<string>)

  /** A scheduled UploadServiceDelayedStartJob. */
  datatype Job = DelayedStartJob(waitSeconds: nat, user: UserId)

  /** The answers of the collaborators start! calls; `None` in an `Option<Exception>`
      means the call returned normally. */
  datatype Collaborators = Collaborators(
    createUpload: Params -> Option<Exception>,                         // Upload.create!
    isInvalid: Params -> bool,                                         // Upload#invalid?
    getFile: (Params, Option<FileRef>) -> Result<FileRef, Exception>,  // Utils.get_file_for_upload
    processFile: (Params, FileRef) -> Result<Media, Exception>,        // Utils.process_file
    saveUpload: (Params, Media) -> Option<Exception>,                  // Upload#save!
    canonicalUrl: (string, Option<string>) -> Option<string>,          // Sources::Strategies.find(..).canonical_url
    savePost: PostFields -> Result<SavedPost, Exception>,              // Post#save!
    createFrameData: FrameData -> Option<Exception>,                   // PixivUgoiraFrameData.create
    createCommentary: ArtistCommentary -> Option<Exception>)           // Post#create_artist_commentary

  /** What the Preprocessor reports about an earlier upload of the same submission.
      in_progress? is asked before completed?, so it wins when both hold. */
  datatype Predecessor =
    | InProgress(predecessor: Upload?)  // return preprocessor.predecessor
    | Completed(finished: Upload)       // the record preprocessor.finish! returns
    | NoPredecessor

  function PredecessorRecord(pre: Predecessor): set<Upload> {
    if pre.Completed? then {pre.finished} else {}
  }

  /** `params[:rating] ||= "q"` and `params[:tag_string] ||= "tagme"`. */
  function WithDefaults(p: Params): (q: Params)
    ensures p.rating.None? ==> q.rating == Some(DEFAULT_RATING)
    ensures p.rating.Some? ==> q.rating == p.rating
    ensures p.tagString.None? ==> q.tagString == Some(DEFAULT_TAG_STRING)
    ensures p.tagString.Some? ==> q.tagString == p.tagString
    ensures q.(rating := p.rating, tagString := p.tagString) == p
  {
    p.(rating := Some(p.rating.GetOr(DEFAULT_RATING)), tagString := Some(p.tagString.GetOr(DEFAULT_TAG_STRING)))
  }

  /** Applying the defaults a second time changes nothing. */
  lemma WithDefaultsIdempotent(p: Params)
    ensures WithDefaults(WithDefaults(p)) == WithDefaults(p)
  {
  }

  const COMMENTARY_TAGS := {"commentary", "commentary_request", "commentary_check", "partial_commentary"}

  /** The tags the four add_tag calls of convert_to_post add. */
  function CommentaryTagsFor(u: Params): (tags: set<string>)
    ensures "commentary" in tags <==> u.addCommentaryTag
    ensures "commentary_request" in tags <==> u.addCommentaryRequestTag
    ensures "commentary_check" in tags <==> u.addCommentaryCheckTag
    ensures "partial_commentary" in tags <==> u.addPartialCommentaryTag
    ensures tags <= COMMENTARY_TAGS
  {
    assert "commentary"[10..] == "" && "commentary_check"[10..] == "_check";
    assert "commentary_request"[0] != "partial_commentary"[0];
    (if u.addCommentaryTag then {"commentary"} else {})
    + (if u.addCommentaryRequestTag then {"commentary_request"} else {})
    + (if u.addCommentaryCheckTag then {"commentary_check"} else {})
    + (if u.addPartialCommentaryTag then {"partial_commentary"} else {})
  }

  /** The source convert_to_post assigns: the canonical URL of the strategy for the
      source and referer, falling back to the source; nothing when the source is blank. */
  function PostSource(u: Params, canonicalUrl: (string, Option<string>) -> Option<string>): (r: Option<string>)
    ensures r.Some? <==> IsPresent(u.source)
    ensures IsPresent(u.source) ==> r == Some(canonicalUrl(u.source.value, u.refererUrl).GetOr(u.source.value))
  {
    if IsPresent(u.source) then Some(canonicalUrl(u.source.value, u.refererUrl).GetOr(u.source.value)) else None
  }

  /** convert_to_post: the Post built from an upload's attributes and media. */
  function ConvertToPost(u: Params, m: Media, canonicalUrl: (string, Option<string>) -> Option<string>): (p: PostFields)
    ensures p.hasCropped
    ensures p.tagString == u.tagString && p.rating == u.rating && p.parentId == u.parentId
    ensures p.uploaderId == u.uploaderId && p.uploaderIpAddr == u.uploaderIpAddr
    ensures p.md5 == m.md5 && p.fileExt == m.fileExt && p.fileSize == m.fileSize
    ensures p.imageWidth == m.imageWidth && p.imageHeight == m.imageHeight
    ensures p.source.Some? <==> IsPresent(u.source)
    ensures IsPresent(u.source) ==> p.source == Some(canonicalUrl(u.source.value, u.refererUrl).GetOr(u.source.value))
    ensures p.isPending <==> !u.uploaderCanUploadFree || u.uploadAsPending
    ensures "commentary" in p.addedTags <==> u.addCommentaryTag
    ensures "commentary_request" in p.addedTags <==> u.addCommentaryRequestTag
    ensures "commentary_check" in p.addedTags <==> u.addCommentaryCheckTag
    ensures "partial_commentary" in p.addedTags <==> u.addPartialCommentaryTag
    ensures p.addedTags <= COMMENTARY_TAGS
  {
    PostFields(
      hasCropped := true,
      tagString := u.tagString,
      md5 := m.md5,
      fileExt := m.fileExt,
      imageWidth := m.imageWidth,
      imageHeight := m.imageHeight,
      rating := u.rating,
      source := PostSource(u, canonicalUrl),
      fileSize := m.fileSize,
      uploaderId := u.uploaderId,
      uploaderIpAddr := u.uploaderIpAddr,
      parentId := u.parentId,
      isPending := !u.uploaderCanUploadFree || u.uploadAsPending,
      addedTags := CommentaryTagsFor(u))
  }

  /** `upload.context && upload.context["ugoira"]`: the ugoira entry when it is truthy. */
  function UgoiraOf(context: Option<map<string, Json>>): (r: Option<Json>)
    ensures r.Some? <==> context.Some? && "ugoira" in context.value && Truthy(context.value["ugoira"])
    ensures r.Some? ==> r.value == context.value["ugoira"]
  {
    match context
    case None => None
    case Some(c) => if "ugoira" in c && Truthy(c["ugoira"]) then Some(c["ugoira"]) else None
  }

  /** The frame data created for a post: its id, then `ugoira["frame_data"]` and
      `ugoira["content_type"]` in that order; the first indexing that raises is the
      exception. A hash entry's values are copied verbatim. */
  function FrameDataFor(postId: nat, ugoira: Json): (r: Result<FrameData, Exception>)
    ensures r.Success? <==> ugoira.Object? || ugoira.Str?
    ensures r.Success? ==>
      r.value == FrameData(postId, Index(ugoira, "frame_data").value, Index(ugoira, "content_type").value)
    ensures r.Failure? ==> r.error == Index(ugoira, "frame_data").error
    ensures ugoira.Object? && "frame_data" in ugoira.fields && "content_type" in ugoira.fields ==>
      r == Success(FrameData(postId, ugoira.fields["frame_data"], ugoira.fields["content_type"]))
  {
    match Index(ugoira, "frame_data")
    case Failure(x) => Failure(x)
    case Success(data) =>
      match Index(ugoira, "content_type")
      case Failure(x) => Failure(x)
      case Success(contentType) => Success(FrameData(postId, data, contentType))
  }

  /** The commentary created for a post: its id and the upload's original and
      translated titles and descriptions. */
  function CommentaryFor(postId: nat, u: Params): (c: ArtistCommentary)
    ensures c.postId == postId
    ensures c.originalTitle == u.artistCommentaryTitle && c.originalDescription == u.artistCommentaryDesc
    ensures c.translatedTitle == u.translatedCommentaryTitle && c.translatedDescription == u.translatedCommentaryDesc
  {
    ArtistCommentary(postId, u.artistCommentaryTitle, u.artistCommentaryDesc,
      u.translatedCommentaryTitle, u.translatedCommentaryDesc)
  }

  /** The frame-data creation create_post_from_upload attempts once the post has id `postId`. */
  function FrameDataFailure(env: Collaborators, postId: nat, m: Media): Option<Exception> {
    match UgoiraOf(m.context)
    case Some(g) =>
      (match FrameDataFor(postId, g)
       case Failure(x) => Some(x)
       case Success(d) => env.createFrameData(d))
    case None => None
  }

  function CommentaryFailure(env: Collaborators, postId: nat, u: Params): Option<Exception> {
    if u.includeArtistCommentary then env.createCommentary(CommentaryFor(postId, u)) else None
  }

  /** The exception create_post_from_upload raises, if any. */
  function MaterializeFailure(env: Collaborators, u: Params, m: Media): Option<Exception> {
    match env.savePost(ConvertToPost(u, m, env.canonicalUrl))
    case Failure(x) => Some(x)
    case Success(saved) =>
      if FrameDataFailure(env, saved.id, m).Some? then FrameDataFailure(env, saved.id, m)
      else CommentaryFailure(env, saved.id, u)
  }

  /** The post create_post_from_upload leaves in @post: built by convert_to_post,
      with the id and warnings Post#save! reports once it succeeds. */
  function BuiltPost(env: Collaborators, u: Params, m: Media): Post {
    var fields := ConvertToPost(u, m, env.canonicalUrl);
    match env.savePost(fields)
    case Failure(_) => Post(fields, None, [])
    case Success(saved) => Post(fields, Some(saved.id), saved.warnings)
  }

  /** The post rows create_post_from_upload adds: the post, once it is saved. */
  function PostRows(env: Collaborators, u: Params, m: Media): seq<Post> {
    if BuiltPost(env, u, m).id.Some? then [BuiltPost(env, u, m)] else []
  }

  /** The frame-data rows added for a saved post: the row, unless creating it raised. */
  function FrameRows(env: Collaborators, postId: nat, m: Media): seq<FrameData> {
    match UgoiraOf(m.context)
    case Some(g) =>
      if FrameDataFor(postId, g).Success? && env.createFrameData(FrameDataFor(postId, g).value).None?
      then [FrameDataFor(postId, g).value] else []
    case None => []
  }

  /** The commentary rows added for a saved post: none once the frame data raised. */
  function CommentaryRows(env: Collaborators, postId: nat, u: Params, m: Media): seq<ArtistCommentary> {
    if FrameDataFailure(env, postId, m).None? && u.includeArtistCommentary
       && env.createCommentary(CommentaryFor(postId, u)).None?
    then [CommentaryFor(postId, u)]
    else []
  }

  function MaterializedFrameRows(env: Collaborators, u: Params, m: Media): seq<FrameData> {
    match BuiltPost(env, u, m).id
    case Some(id) => FrameRows(env, id, m)
    case None => []
  }

  function MaterializedCommentaryRows(env: Collaborators, u: Params, m: Media): seq<ArtistCommentary> {
    match BuiltPost(env, u, m).id
    case Some(id) => CommentaryRows(env, id, u, m)
    case None => []
  }

  /** The rows materialization leaves. Without an exception: the saved post and every
      dependent record asked for. A post that Post#save! stored stays even when a
      dependent record raises afterwards, and so does frame data created before the
      commentary raises; nothing is written when the post does not save. */
  lemma MaterializedRows(env: Collaborators, u: Params, m: Media)
    ensures MaterializeFailure(env, u, m).None? ==>
      && BuiltPost(env, u, m).id.Some?
      && PostRows(env, u, m) == [BuiltPost(env, u, m)]
      && MaterializedFrameRows(env, u, m) ==
           (match UgoiraOf(m.context)
            case Some(g) => [FrameDataFor(BuiltPost(env, u, m).id.value, g).value]
            case None => [])
      && MaterializedCommentaryRows(env, u, m) ==
           (if u.includeArtistCommentary then [CommentaryFor(BuiltPost(env, u, m).id.value, u)] else [])
    ensures env.savePost(ConvertToPost(u, m, env.canonicalUrl)).Success? ==>
      && BuiltPost(env, u, m).id == Some(env.savePost(ConvertToPost(u, m, env.canonicalUrl)).value.id)
      && PostRows(env, u, m) == [BuiltPost(env, u, m)]
    ensures env.savePost(ConvertToPost(u, m, env.canonicalUrl)).Failure? ==>
      && BuiltPost(env, u, m).id == None && BuiltPost(env, u, m).warnings == []
      && PostRows(env, u, m) == [] && MaterializedFrameRows(env, u, m) == [] && MaterializedCommentaryRows(env, u, m) == []
    ensures BuiltPost(env, u, m).id.Some? ==>
      var id := BuiltPost(env, u, m).id.value;
      FrameDataFailure(env, id, m).None? && CommentaryFailure(env, id, u).Some? ==>
        && MaterializedFrameRows(env, u, m) ==
             (match UgoiraOf(m.context) case Some(g) => [FrameDataFor(id, g).value] case None => [])
        && MaterializedCommentaryRows(env, u, m) == []
  {
    MaterializeSucceedsIff(env, u, m);
  }

  /** A truthy "ugoira" entry that is neither a hash nor a string makes
      `ugoira["frame_data"]` raise once the post is saved: the post stays, and no
      frame data or commentary is created. */
  lemma NonHashUgoiraRaises(env: Collaborators, u: Params, m: Media)
    requires UgoiraOf(m.context).Some?
    requires !UgoiraOf(m.context).value.Object? && !UgoiraOf(m.context).value.Str?
    requires env.savePost(ConvertToPost(u, m, env.canonicalUrl)).Success?
    ensures MaterializeFailure(env, u, m) == Some(IndexError(UgoiraOf(m.context).value))
    ensures PostRows(env, u, m) == [BuiltPost(env, u, m)]
    ensures MaterializedFrameRows(env, u, m) == [] && MaterializedCommentaryRows(env, u, m) == []
  {
  }

  /** The file an upload holds after get_file_for_upload: its result, or the file
      submitted when it raised. */
  function FetchedFile(env: Collaborators, p: Params): Option<FileRef> {
    match env.getFile(p, p.file)
    case Success(f) => Some(f)
    case Failure(_) => p.file
  }

  /** The media attributes after process_file, or `m0` when acquiring or processing
      the file raised. */
  function ProcessedMedia(env: Collaborators, p: Params, m0: Media): Media {
    match env.getFile(p, p.file)
    case Failure(_) => m0
    case Success(f) =>
      match env.processFile(p, f)
      case Failure(_) => m0
      case Success(m) => m
  }

  /** File acquisition, processing and Upload#save! all return, so
      create_post_from_upload runs. */
  predicate ReachesMaterialize(env: Collaborators, p: Params) {
    && env.getFile(p, p.file).Success?
    && env.processFile(p, env.getFile(p, p.file).value).Success?
    && env.saveUpload(p, env.processFile(p, env.getFile(p, p.file).value).value).None?
  }

  /** The exception raised after a fresh, valid upload with attributes `p` is created
      (file acquisition, processing, saving, materialization), if any. */
  function ProcessingFailure(env: Collaborators, p: Params): Option<Exception> {
    match env.getFile(p, p.file)
    case Failure(x) => Some(x)
    case Success(f) =>
      match env.processFile(p, f)
      case Failure(x) => Some(x)
      case Success(m) =>
        if env.saveUpload(p, m).Some? then env.saveUpload(p, m) else MaterializeFailure(env, p, m)
  }

  /** Materialization raises nothing exactly when the post saves and each dependent
      record it asks for is created without raising. */
  lemma MaterializeSucceedsIff(env: Collaborators, u: Params, m: Media)
    ensures MaterializeFailure(env, u, m).None? <==>
      && env.savePost(ConvertToPost(u, m, env.canonicalUrl)).Success?
      && var id := env.savePost(ConvertToPost(u, m, env.canonicalUrl)).value.id;
         && (UgoiraOf(m.context).Some? ==>
               && FrameDataFor(id, UgoiraOf(m.context).value).Success?
               && env.createFrameData(FrameDataFor(id, UgoiraOf(m.context).value).value).None?)
         && (u.includeArtistCommentary ==> env.createCommentary(CommentaryFor(id, u)).None?)
  {
  }

  /** Processing a fresh upload raises nothing exactly when every step in turn
      (file acquisition, processing, saving, materialization) succeeds; otherwise the
      exception is that of the first step that fails. */
  lemma ProcessingSucceedsIff(env: Collaborators, p: Params, m0: Media)
    ensures ProcessingFailure(env, p).None? <==>
      && env.getFile(p, p.file).Success?
      && env.processFile(p, env.getFile(p, p.file).value).Success?
      && var m := env.processFile(p, env.getFile(p, p.file).value).value;
         env.saveUpload(p, m).None? && MaterializeFailure(env, p, m).None?
    ensures ProcessingFailure(env, p).None? <==>
      ReachesMaterialize(env, p) && MaterializeFailure(env, p, ProcessedMedia(env, p, m0)).None?
    ensures env.getFile(p, p.file).Failure? ==> ProcessingFailure(env, p) == Some(env.getFile(p, p.file).error)
  {
  }

  /** A fresh upload processed without an exception has its post saved, with every
      dependent record it asks for. */
  lemma CompletedUploadHasPost(env: Collaborators, p: Params, m0: Media)
    requires ProcessingFailure(env, p).None?
    ensures ReachesMaterialize(env, p)
    ensures var m := ProcessedMedia(env, p, m0);
      && BuiltPost(env, p, m).id.Some?
      && PostRows(env, p, m) == [BuiltPost(env, p, m)]
      && MaterializedFrameRows(env, p, m) ==
           (match UgoiraOf(m.context) case Some(g) => [FrameDataFor(BuiltPost(env, p, m).id.value, g).value] case None => [])
      && MaterializedCommentaryRows(env, p, m) ==
           (if p.includeArtistCommentary then [CommentaryFor(BuiltPost(env, p, m).id.value, p)] else [])
  {
    ProcessingSucceedsIff(env, p, m0);
    MaterializedRows(env, p, ProcessedMedia(env, p, m0));
  }

  /** An error status is none of the other statuses the pipeline writes. */
  lemma ErrorStatusIsDistinct(x: Exception)
    ensures "error: " <= ErrorStatus(x)
    ensures ErrorStatus(x) != "pending" && ErrorStatus(x) != "processing" && ErrorStatus(x) != "completed"
  {
    assert ErrorStatus(x)[0] == 'e';
  }

  /** The persisted rows this core writes. */
  class Database {
    var uploads: seq<Upload>
    var posts: seq<Post>
    var frameData: seq<FrameData>
    var commentaries: seq<ArtistCommentary>

    constructor ()
      ensures uploads == [] && posts == [] && frameData == [] && commentaries == []
    {
      uploads, posts, frameData, commentaries := [], [], [], [];
    }
  }

  class Upload {
    var attrs: Params
    var media: Media
    var file: Option<FileRef>
    var status: string
    var postId: Option<nat>
    var backtrace: Option<string>
    /** Every status the record has held, oldest first. */
    ghost var history: seq<string>

    /** A new record as Upload.create! leaves it: status "pending", no post yet. */
    constructor (p: Params)
      ensures attrs == p && media == NO_MEDIA && file == p.file
      ensures status == "pending" && postId == None && backtrace == None
      ensures history == ["pending"]
    {
      attrs, media, file := p, NO_MEDIA, p.file;
      status, postId, backtrace := "pending", None, None;
      history := ["pending"];
    }

    /** `update(status: s)`. */
    method SetStatus(s: string)
      modifies this
      ensures status == s && history == old(history) + [s]
      ensures attrs == old(attrs) && media == old(media) && file == old(file)
      ensures postId == old(postId) && backtrace == old(backtrace)
    {
      status := s;
      history := history + [s];
    }

    /** `update(status: "error: <class> - <message>", backtrace: ...)`. */
    method RecordError(x: Exception)
      modifies this
      ensures status == ErrorStatus(x) && backtrace == Some(Join(x.backtrace, "\n"))
      ensures attrs == old(attrs) && media == old(media) && file == old(file) && postId == old(postId)
      ensures history == old(history) + [ErrorStatus(x)]
    {
      status := ErrorStatus(x);
      history := history + [status];
      backtrace := Some(Join(x.backtrace, "\n"));
    }
  }

  /** The final state of a record that went through processing: completed with the
      id of the post saved for it and its backtrace as it was, or the error status
      and backtrace of the exception caught with its post id as it was. */
  ghost predicate Finalized(u: Upload, failure: Option<Exception>, priorPostId: Option<nat>,
                            priorBacktrace: Option<string>, env: Collaborators)
    reads u
  {
    match failure
    case Some(x) => u.status == ErrorStatus(x) && u.backtrace == Some(Join(x.backtrace, "\n")) && u.postId == priorPostId
    case None =>
      && u.status == "completed" && u.backtrace == priorBacktrace
      && u.postId.Some? && u.postId == BuiltPost(env, u.attrs, u.media).id
  }

  class UploadService {
    var params: Params
    var upload: Upload?
    var post: Option<Post>
    var scheduled: seq<Job>

    constructor (params: Params)
      ensures this.params == params && upload == null && post == None && scheduled == []
    {
      this.params := params;
      upload, post, scheduled := null, None, [];
    }

    /** warnings: none until a post has been built. */
    function Warnings(): (r: seq<string>)
      reads this
      ensures post.None? ==> r == []
      ensures post.Some? ==> r == post.value.warnings
    {
      if post.None? then [] else post.value.warnings
    }

    /** What create_post_from_upload leaves for attributes `p` and media `m`: @post
        is the built post, and the rows it saved are appended. */
    twostate predicate Materialized(db: Database, env: Collaborators, p: Params, m: Media)
      reads this, db
    {
      && post == Some(BuiltPost(env, p, m))
      && db.posts == old(db.posts) + PostRows(env, p, m)
      && db.frameData == old(db.frameData) + MaterializedFrameRows(env, p, m)
      && db.commentaries == old(db.commentaries) + MaterializedCommentaryRows(env, p, m)
    }

    /** Neither @post nor any post, frame-data or commentary row has changed. */
    twostate predicate NoPostWritten(db: Database)
      reads this, db
    {
      && post == old(post)
      && db.posts == old(db.posts) && db.frameData == old(db.frameData) && db.commentaries == old(db.commentaries)
    }

    /** The state start! leaves, in each of its three branches. */
    twostate predicate StartEffects(pre: Predecessor, currentUser: UserId, env: Collaborators, db: Database)
      reads this, db, PredecessorRecord(pre), if upload == null then {} else {upload}
    {
      && (pre.InProgress? ==>
            && scheduled == old(scheduled) + [DelayedStartJob(RESTART_DELAY_SECONDS, currentUser)]
            && params == old(params) && upload == old(upload) && post == old(post)
            && unchanged(db))
      && (pre.Completed? ==>
            && upload == pre.finished
            && scheduled == old(scheduled) && params == old(params)
            && db.uploads == old(db.uploads)
            && pre.finished.attrs == old(pre.finished.attrs) && pre.finished.media == old(pre.finished.media)
            && pre.finished.file == old(pre.finished.file)
            && Finalized(pre.finished, MaterializeFailure(env, old(pre.finished.attrs), old(pre.finished.media)),
                         old(pre.finished.postId), old(pre.finished.backtrace), env)
            && pre.finished.history == old(pre.finished.history) + [pre.finished.status]
            && Materialized(db, env, pre.finished.attrs, pre.finished.media))
      && (pre.NoPredecessor? ==>
            && params == WithDefaults(old(params))
            && scheduled == old(scheduled)
            && (env.createUpload(params).Some? ==> upload == old(upload) && post == old(post) && unchanged(db))
            && (env.createUpload(params).None? ==>
                  && upload != null && fresh(upload)
                  && db.uploads == old(db.uploads) + [upload]
                  && upload.attrs == params
                  && (env.isInvalid(params) ==>
                        && upload.status == "pending" && upload.postId == None && upload.backtrace == None
                        && upload.media == NO_MEDIA && upload.file == params.file
                        && upload.history == ["pending"]
                        && NoPostWritten(db))
                  && (!env.isInvalid(params) ==>
                        && upload.file == FetchedFile(env, params)
                        && upload.media == ProcessedMedia(env, params, NO_MEDIA)
                        && Finalized(upload, ProcessingFailure(env, params), None, None, env)
                        && upload.history == ["pending", "processing", upload.status]
                        && (upload.status == "completed" <==> upload.postId.Some?)
                        && (ReachesMaterialize(env, params) ==> Materialized(db, env, params, upload.media))
                        && (!ReachesMaterialize(env, params) ==> NoPostWritten(db)))))
    }

    /** delayed_start: start! as the uploader; a RecordNotUnique escaping it is
        swallowed and nil is returned, any other exception propagates. */
    method DelayedStart(uploaderId: UserId, pre: Predecessor, env: Collaborators, db: Database)
      returns (r: Result<Upload?, Exception>)
      modifies this, db, PredecessorRecord(pre)
      ensures var created := env.createUpload(WithDefaults(old(params)));
        if pre.NoPredecessor? && created.Some? then
          r == (if created.value.className == RECORD_NOT_UNIQUE then Success(null) else Failure(created.value))
        else
          r.Success? && r.value == (if pre.InProgress? then pre.predecessor else upload)
      ensures StartEffects(pre, uploaderId, env, db)
    {
      var started := Start(pre, uploaderId, env, db);
      if started.Failure? && started.error.className == RECORD_NOT_UNIQUE {
        return Success(null);
      }
      r := started;
    }

    /** start!: the three branches of the pipeline entry point. */
    method Start(pre: Predecessor, currentUser: UserId, env: Collaborators, db: Database)
      returns (r: Result<Upload?, Exception>)
      modifies this, db, PredecessorRecord(pre)
      ensures r.Failure? <==> pre.NoPredecessor? && env.createUpload(WithDefaults(old(params))).Some?
      ensures r.Failure? ==> r.error == env.createUpload(WithDefaults(old(params))).value
      ensures pre.InProgress? ==> r == Success(pre.predecessor)
      ensures pre.Completed? ==> r == Success(pre.finished)
      ensures pre.NoPredecessor? && r.Success? ==> r == Success(upload)
      ensures StartEffects(pre, currentUser, env, db)
    {
      match pre
      case InProgress(predecessor) =>
        scheduled := scheduled + [DelayedStartJob(RESTART_DELAY_SECONDS, currentUser)];
        return Success(predecessor);
      case Completed(finished) =>
        upload := finished;
        var made := CreatePostFromUpload(finished, env, db);
        if made.Failure? {
          finished.RecordError(made.error);
        }
        return Success(finished);
      case NoPredecessor =>
        params := WithDefaults(params);
        var failure := env.createUpload(params);
        if failure.Some? {
          return Failure(failure.value);
        }
        var u := new Upload(params);
        db.uploads := db.uploads + [u];
        upload := u;
        if env.isInvalid(params) {
          return Success(u);
        }
        ProcessCreated(u, env, db);
        return Success(u);
    }

    /** The rescued block of start!'s fresh path for a valid new record: mark it
        processing, acquire and process the file, save, materialize; an exception
        from any step is written to the record as its error status. */
    method ProcessCreated(u: Upload, env: Collaborators, db: Database)
      requires u.postId == None && u.file == u.attrs.file
      modifies this`post, u, db
      ensures u.attrs == old(u.attrs) && db.uploads == old(db.uploads)
      ensures u.file == FetchedFile(env, u.attrs) && u.media == ProcessedMedia(env, u.attrs, old(u.media))
      ensures Finalized(u, ProcessingFailure(env, u.attrs), None, old(u.backtrace), env)
      ensures u.status == "completed" <==> u.postId.Some?
      ensures u.history == old(u.history) + ["processing", u.status]
      ensures ReachesMaterialize(env, u.attrs) ==> Materialized(db, env, u.attrs, u.media)
      ensures !ReachesMaterialize(env, u.attrs) ==> NoPostWritten(db)
    {
      u.SetStatus("processing");
      var fetched := env.getFile(u.attrs, u.file);
      if fetched.Failure? {
        u.RecordError(fetched.error);
        ErrorStatusIsDistinct(fetched.error);
        return;
      }
      u.file := Some(fetched.value);
      var processed := env.processFile(u.attrs, fetched.value);
      if processed.Failure? {
        u.RecordError(processed.error);
        ErrorStatusIsDistinct(processed.error);
        return;
      }
      u.media := processed.value;
      var saveFailure := env.saveUpload(u.attrs, u.media);
      if saveFailure.Some? {
        u.RecordError(saveFailure.value);
        ErrorStatusIsDistinct(saveFailure.value);
        return;
      }
      var made := CreatePostFromUpload(u, env, db);
      if made.Failure? {
        u.RecordError(made.error);
        ErrorStatusIsDistinct(made.error);
      }
    }

    /** create_post_from_upload: build and save the post, then the frame data (when
        the context carries a truthy "ugoira" entry) and the commentary (when asked
        for), then mark the upload completed. There is no transaction: whatever was
        created before an exception stays. */
    method CreatePostFromUpload(u: Upload, env: Collaborators, db: Database) returns (r: Result<Post, Exception>)
      modifies this`post, u, db
      ensures u.attrs == old(u.attrs) && u.media == old(u.media) && u.file == old(u.file)
      ensures u.backtrace == old(u.backtrace) && db.uploads == old(db.uploads)
      ensures r.Failure? <==> MaterializeFailure(env, u.attrs, u.media).Some?
      ensures r.Failure? ==> r.error == MaterializeFailure(env, u.attrs, u.media).value
      ensures r.Failure? ==> u.status == old(u.status) && u.postId == old(u.postId) && u.history == old(u.history)
      ensures r.Success? ==>
        && r.value == BuiltPost(env, u.attrs, u.media)
        && u.status == "completed" && u.postId == r.value.id
        && u.history == old(u.history) + ["completed"]
      ensures Materialized(db, env, u.attrs, u.media)
    {
      var fields := ConvertToPost(u.attrs, u.media, env.canonicalUrl);
      post := Some(Post(fields, None, []));
      var saved := env.savePost(fields);
      if saved.Failure? {
        return Failure(saved.error);
      }
      var id := saved.value.id;
      var p := Post(fields, Some(id), saved.value.warnings);
      post := Some(p);
      db.posts := db.posts + [p];
      var failure := SaveDependents(id, u.attrs, u.media, env, db);
      if failure.Some? {
        return Failure(failure.value);
      }
      u.status := "completed";
      u.postId := Some(id);
      u.history := u.history + ["completed"];
      r := Success(p);
    }

    /** The ugoira frame data and the artist commentary saved for a new post, in
        that order; the first exception stops the sequence, and a row created
        before it stays. */
    method SaveDependents(id: nat, attrs: Params, m: Media, env: Collaborators, db: Database)
      returns (failure: Option<Exception>)
      modifies db
      ensures db.uploads == old(db.uploads) && db.posts == old(db.posts)
      ensures failure == (if FrameDataFailure(env, id, m).Some? then FrameDataFailure(env, id, m)
                          else CommentaryFailure(env, id, attrs))
      ensures db.frameData == old(db.frameData) + FrameRows(env, id, m)
      ensures db.commentaries == old(db.commentaries) + CommentaryRows(env, id, attrs, m)
    {
      var ugoira := UgoiraOf(m.context);
      if ugoira.Some? {
        var frames := FrameDataFor(id, ugoira.value);
        if frames.Failure? {
          return Some(frames.error);
        }
        failure := env.createFrameData(frames.value);
        if failure.Some? {
          return;
        }
        db.frameData := db.frameData + [frames.value];
      }
      if attrs.includeArtistCommentary {
        var commentary := CommentaryFor(id, attrs);
        failure := env.createCommentary(commentary);
        if failure.Some? {
          return;
        }
        db.commentaries := db.commentaries + [commentary];
      }
      failure := None;
    }
  }
}
