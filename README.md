# Twitter source strategy and upload pipeline, modelled in Dafny

This project models two parts of an image-board ingestion pipeline.

**The Twitter source strategy.** It recognises two kinds of URL: tweet
permalinks (`http(s)://[mobile.]twitter.com/<handle>/status/<digits>`) and
`pbs.twimg.com/media/` CDN URLs. It chooses which URL is the page (the raw URL,
or the referer when the URL is a CDN image and the referer is a permalink). It
parses the status ID from a permalink. From the API's status record it fills in
the artist name, profile URL, image URL and commentary fields. It also lowercases
URLs for the artist finder.

- The three fixed regular expressions are hand-written matchers, in
  `twitter_patterns.dfy`.
- Each matcher is proved equivalent to a declarative definition: "there are a
  scheme, an optional `mobile.`, a handle of word characters and a digit run
  such that the text has this prefix". The unanchored patterns ask for such a
  match at some position. The `^`-anchored pattern asks for one at the start of
  some line, because Ruby's `^` matches at the start of any line.
- The API client is an oracle class, in `twitter.dfy`. It logs every status
  request it receives.
- The `@api_response` memo is a cache field. This lets the model prove that the
  status-ID parse runs on every call, while the API is asked again only until a
  query succeeds: a query that raises caches nothing.

**The upload pipeline.** `start!` has three branches:

- **In progress:** an earlier identical upload is still running. The pipeline
  schedules a restart job and returns that upload.
- **Completed:** an earlier upload finished. The pipeline materialises its post.
- **Fresh:** the pipeline applies the rating and tag defaults and creates an
  Upload record. It then takes the record from `pending` through `processing`
  to either `completed` with a post id, or `error: <class> - <message>` with the
  backtrace stored.

The rest of the pipeline:

- `create_post_from_upload` saves the post built by `convert_to_post`. Then it
  creates, when asked for, the ugoira frame data and the artist commentary, and
  finally marks the upload completed.
- Every collaborator (record creation and saving, validation, file acquisition
  and processing, the strategy registry's canonical URL, post saving, dependent
  record creation) is an oracle function in `Collaborators`. Each one may raise,
  except validation and the canonical-URL lookup (see "Left out").
- Persisted rows are sequences in a `Database` object.
- The Upload record is a class. Its ghost `history` lists every status it has
  held.

Files:

- `wrappers.dfy`: Option and Result.
- `text.dfy`: character classes, greedy runs, decimal value, substring search,
  ASCII lowercasing, `present?` and `join`.
- `twitter_patterns.dfy`: the matchers and their declarative definitions.
- `twitter.dfy`: the strategy.
- `upload_service.dfy`: the pipeline.

Two facts about the code that the model states:

- `create_post_from_upload` runs without a transaction. A post saved before a
  failed dependent creation stays saved, and so does frame data created before
  the commentary raises.
- Frame data is created when the context's `"ugoira"` entry is truthy, not
  merely when the key is present: `upload.context["ugoira"]` is tested for
  truthiness. An entry that is truthy but neither a hash nor a string makes
  `["frame_data"]` raise after the post is saved, so the upload ends in an error
  status with its post row kept.

## Model

| member | source | states |
|---|---|---|
| TwitterStrategy.Twitter.UrlMatch | app/logical/sources/strategies/twitter.rb:3-5 | true exactly when the URL contains a status permalink match or a `pbs.twimg.com/media/` match somewhere |
| TwitterStrategy.Twitter.RefererUrl | app/logical/sources/strategies/twitter.rb:7-13 | the referer exactly when it contains a permalink match and the URL contains a media match, otherwise the URL; an unrelated referer is never returned |
| TwitterStrategy.Twitter.Tags | app/logical/sources/strategies/twitter.rb:15-17 | always empty |
| TwitterStrategy.Twitter.SiteName | app/logical/sources/strategies/twitter.rb:19-21 | always "Twitter" |
| TwitterStrategy.Twitter.ApiResponse | app/logical/sources/strategies/twitter.rb:23-26 | parses the status ID on every call and re-raises its error; asks the API only with an empty cache; caches only a successful answer; the request log grows by that one ID only then |
| TwitterStrategy.ApiResponseTwice | app/logical/sources/strategies/twitter.rb:23-26 | after a successful first query, a second query returns the same record and the API has been asked exactly once |
| TwitterStrategy.TwitterService.Status | app/logical/sources/strategies/twitter.rb:25 | the client's answer for the status ID, with that one request appended to the log |
| TwitterStrategy.Twitter.Get | app/logical/sources/strategies/twitter.rb:28-39 | artist name is the user's name, profile URL is "https://twitter.com/" + screen name, image URL is the first of the client's image URLs for the URL (nil if none), title "", description the status text; an API or image-URL error is raised with exactly the fields assigned before it; the cache holds the record after a successful query and stays empty after a failed one |
| TwitterStrategy.Twitter.AssignAttributes | app/logical/sources/strategies/twitter.rb:30-39 | the attributes assigned from a status record, in source order; an image-URL error stops the sequence with the title and description unassigned |
| TwitterStrategy.Twitter.NormalizeForArtistFinder | app/logical/sources/strategies/twitter.rb:41-43 | the URL lowercased character by character, and already lowercase (normalising twice is normalising once) |
| TwitterStrategy.Twitter.NormalizableForArtistFinder | app/logical/sources/strategies/twitter.rb:45-47 | always true |
| TwitterStrategy.Twitter.StatusIdFromUrl | app/logical/sources/strategies/twitter.rb:49-55 | fails exactly when no line of the URL starts with a permalink, and then with the Sources::Error "Couldn't get status ID from URL: " + URL |
| TwitterStrategy.StatusIdOfPermalink | app/logical/sources/strategies/twitter.rb:49-52 | a URL starting with a permalink yields the decimal value of the whole digit run after "/status/" |
| TwitterStrategy.StatusIdOfLine | app/logical/sources/strategies/twitter.rb:49-52 | a permalink at the start of a later line, with no earlier line starting with one, yields the decimal value of its whole digit run, because `^` matches after any newline |
| TwitterStrategy.StatusIdAtStart | app/logical/sources/strategies/twitter.rb:50-51 | when the first line starting with a permalink is the first line, the ID is the decimal value of the digit run where the matcher found the ID |
| TwitterStrategy.MediaUrlHasNoStatusId | app/logical/sources/strategies/twitter.rb:53-54 | a one-line CDN media URL raises the Sources::Error |
| TwitterStrategy.ExampleStatusId | app/logical/sources/strategies/twitter.rb:49-52 | "https://twitter.com/alice/status/123456" yields 123456 |
| Wrappers.First | app/logical/sources/strategies/twitter.rb:32 | nil for an empty list, otherwise its first element |
| TwitterPatterns.ScanIsSomeSuffix | app/logical/sources/strategies/twitter.rb:4 | an unanchored search succeeds exactly when the pattern matches at some position |
| Text.HasPrefixIff | app/logical/sources/strategies/twitter.rb:4 | the character-by-character prefix test agrees with sequence prefix |
| Text.PrefixSplit | app/logical/sources/strategies/twitter.rb:4 | matching a concatenated pattern is matching its first part, then its second part on the rest |
| TwitterPatterns.SchemeEndSound | app/logical/sources/strategies/twitter.rb:4 | a recognised scheme is "http://" or "https://" and is a prefix of the text |
| TwitterPatterns.SchemeEndComplete | app/logical/sources/strategies/twitter.rb:4 | either scheme at the start of the text is recognised, with its length |
| TwitterPatterns.HostEndSound | app/logical/sources/strategies/twitter.rb:4 | a recognised host is "twitter.com/" with or without "mobile." in front |
| TwitterPatterns.HostEndComplete | app/logical/sources/strategies/twitter.rb:4 | both host forms are recognised, with their lengths |
| TwitterPatterns.HostTailSound | app/logical/sources/strategies/twitter.rb:4 | a recognised host followed by a recognised tail forms one prefix |
| TwitterPatterns.HostTailComplete | app/logical/sources/strategies/twitter.rb:4 | after either host form, a handle, "/status/" and digits are recognised, with the ID's offset |
| TwitterPatterns.HandleStatusSound | app/logical/sources/strategies/twitter.rb:4 | a recognised tail is a non-empty word-character handle, "/status/" and a non-empty digit run |
| TwitterPatterns.HandleStatusComplete | app/logical/sources/strategies/twitter.rb:4 | every such tail is recognised, and the ID starts right after "/status/" |
| TwitterPatterns.StatusDigitsAtSound | app/logical/sources/strategies/twitter.rb:4 | every match the permalink matcher reports has the declared shape |
| TwitterPatterns.StatusDigitsAtComplete | app/logical/sources/strategies/twitter.rb:50 | every text starting with a permalink is matched, and the ID starts after scheme, host, handle and "/status/" |
| TwitterPatterns.SchemeTailComplete | app/logical/sources/strategies/twitter.rb:50 | after a recognised scheme, a host, handle, "/status/" and digits put the ID right after "/status/" |
| TwitterPatterns.StatusDigitsAtOf | app/logical/sources/strategies/twitter.rb:50 | the permalink matcher composes its scheme, host and tail matches |
| TwitterPatterns.PermalinkTextSplit | app/logical/sources/strategies/twitter.rb:50 | a permalink is everything up to and including "/status/" followed by the ID, and the length of that head |
| TwitterPatterns.PermalinkTail | app/logical/sources/strategies/twitter.rb:50-51 | what follows the head of a permalink in a longer text is the ID and the rest of the text |
| TwitterPatterns.PermalinkAtStart | app/logical/sources/strategies/twitter.rb:50-51 | a text starting with a permalink is matched at its first line, and the ID is found where the permalink's ID begins |
| TwitterPatterns.FirstLineMatchAtStart | app/logical/sources/strategies/twitter.rb:50 | a pattern matching at the start of the text is found there, at the first line |
| TwitterPatterns.PermalinkAtIff | app/logical/sources/strategies/twitter.rb:4 | the permalink matcher accepts a text exactly when it starts with a permalink |
| TwitterPatterns.ContainsPermalinkIff | app/logical/sources/strategies/twitter.rb:8 | the permalink search succeeds exactly when a permalink occurs somewhere |
| TwitterPatterns.ContainsMediaIff | app/logical/sources/strategies/twitter.rb:8 | the media search succeeds exactly when a media prefix occurs somewhere |
| TwitterPatterns.AnchoredMatchIff | app/logical/sources/strategies/twitter.rb:50 | the `^`-anchored search finds a line start exactly when some line starts with a permalink |
| TwitterPatterns.FirstLineMatch | app/logical/sources/strategies/twitter.rb:50 | the reported position is a line start where the pattern matches, and no earlier line start matches (leftmost match) |
| TwitterPatterns.MediaIsNotPermalink | app/logical/sources/strategies/twitter.rb:4 | a text starting with a CDN media URL does not start with a permalink |
| TwitterPatterns.MediaSchemeEnd | app/logical/sources/strategies/twitter.rb:4 | a media URL's scheme ends before "pbs." |
| Text.LeadingRun | app/logical/sources/strategies/twitter.rb:50 | the greedy run: every character before it satisfies the class and the next does not |
| Text.LeadingRunIs | app/logical/sources/strategies/twitter.rb:50 | the greedy run is determined by the first character outside the class |
| Text.DigitRunPrefix | app/logical/sources/strategies/twitter.rb:50-51 | the captured digits are a prefix of the text, all digits, and as long as the greedy run |
| Text.DecimalValue | app/logical/sources/strategies/twitter.rb:51 | the value of a digit string; k digits denote a number below 10^k |
| Text.DecimalDigits | app/logical/sources/strategies/twitter.rb:51 | the decimal digits of a number, at least one and without a leading zero |
| Text.DecimalRoundTrip | app/logical/sources/strategies/twitter.rb:51 | reading back the digits of a number gives the number, so every status ID is reachable from its permalink |
| Text.DigitRunPrefixOf | app/logical/sources/strategies/twitter.rb:50-51 | a digit run followed by a non-digit or by the end is the whole capture |
| Text.Lower | app/logical/sources/strategies/twitter.rb:42 | same length, each character lowercased |
| Text.LowerIdempotent | app/logical/sources/strategies/twitter.rb:42 | a lowercased string has no upper-case letter and lowercasing it again changes nothing |
| UploadPipeline.UploadService.Start | app/logical/upload_service.rb:21-61 | in progress: one 5-second restart job for the current user, the predecessor returned, nothing else changed; completed: the post materialised (built post in @post, saved rows appended) and the finished record holds the completed status with the saved post's id or the error status of the materialisation's exception; fresh: defaults applied, a failure of Upload.create! propagates with no row and no post written, an invalid record is returned still pending with no post, otherwise it goes pending, processing, then completed with the saved post's id exactly when processing succeeds, or the exact error status and backtrace of the first exception; the file and media are those acquisition and processing returned, and a post is built and its rows written exactly when file acquisition, processing and the save all return |
| UploadPipeline.UploadService.ProcessCreated | app/logical/upload_service.rb:44-60 | processing then completed, or the error status of the first failing step; the status is completed exactly when a post id is set; the file and media are those the steps returned; @post and the post, frame-data and commentary rows are those materialisation writes when it runs, and unchanged otherwise |
| UploadPipeline.UploadService.DelayedStart | app/logical/upload_service.rb:13-19 | a RecordNotUnique escaping start! gives nil, any other exception propagates, otherwise start!'s result; the restart job is for the uploader; the state left is exactly the state start! leaves |
| UploadPipeline.UploadService.Warnings | app/logical/upload_service.rb:63-66 | empty when no post was built, otherwise the post's warnings |
| UploadPipeline.UploadService.CreatePostFromUpload | app/logical/upload_service.rb:68-92 | @post is the built post, with its id and warnings once saved; the saved post, the frame data and the commentary created are appended, and each stays when a later step raises; finally status "completed" and the post id, and the post returned; fails exactly when the materialisation raises, with its exception |
| UploadPipeline.UploadService.SaveDependents | app/logical/upload_service.rb:72-88 | frame data for a truthy ugoira entry, then the commentary when asked for; the first exception raised (including one from indexing an ugoira entry that is not a hash or string) is the one returned; each record created before it is appended, the commentary only when the frame data did not raise |
| UploadPipeline.MaterializedRows | app/logical/upload_service.rb:68-92 | without an exception the saved post and every requested dependent record are written; a saved post stays when a dependent raises, and so does frame data when the commentary raises; nothing is written when the post does not save |
| UploadPipeline.CompletedUploadHasPost | app/logical/upload_service.rb:51-55 | a fresh upload processed without an exception has its post saved with every requested dependent record |
| UploadPipeline.FrameDataFor | app/logical/upload_service.rb:73-77 | the frame data carries the post id and the ugoira entry's frame_data and content_type, verbatim for a hash; it raises, with the error of indexing frame_data, exactly when the entry is neither a hash nor a string |
| UploadPipeline.NonHashUgoiraRaises | app/logical/upload_service.rb:70-77 | a truthy ugoira entry that is neither a hash nor a string raises the indexing error after the post is saved; the post row stays and no frame data or commentary row is written |
| UploadPipeline.CommentaryFor | app/logical/upload_service.rb:81-86 | the commentary carries the post id and the upload's original and translated titles and descriptions |
| UploadPipeline.Truthy | app/logical/upload_service.rb:72 | nil and false are falsy; true is truthy; every number, string, array and hash is truthy, zero and empty ones included |
| UploadPipeline.Index | app/logical/upload_service.rb:75-76 | `v[key]` for a string key: a hash gives the value under the key or nil, a string gives the key exactly when it occurs in it, or nil; nil, booleans, integers and arrays raise |
| UploadPipeline.IndexError | app/logical/upload_service.rb:75 | nil, true and false raise NoMethodError; an Integer or Array raises TypeError |
| Text.OccursIff | app/logical/upload_service.rb:75-76 | the substring search succeeds exactly when the key is a prefix of some suffix of the string |
| UploadPipeline.Upload.RecordError | app/logical/upload_service.rb:35 | status "error: " + class + " - " + message, backtrace lines joined by newlines, nothing else changed |
| Text.Join | app/logical/upload_service.rb:35 | the empty string for no lines; otherwise it starts with the first line and its length is the lines' total plus one separator between each pair |
| UploadPipeline.Upload.SetStatus | app/logical/upload_service.rb:49 | the status is set and recorded in the history, nothing else changed |
| UploadPipeline.WithDefaults | app/logical/upload_service.rb:40-41 | rating becomes "q" and tag string "tagme" only when absent; supplied values and all other attributes unchanged |
| UploadPipeline.WithDefaultsIdempotent | app/logical/upload_service.rb:40-41 | applying the defaults twice is applying them once |
| UploadPipeline.ConvertToPost | app/logical/upload_service.rb:94-120 | has_cropped true; media, rating, tag, uploader and parent fields copied; source set only for a present source; pending exactly when the uploader cannot upload free or asked for pending; each commentary tag added exactly when its flag is set, and no other tag |
| Text.IsPresent | app/logical/upload_service.rb:103 | a string is present exactly when it is not nil and not blank (not all whitespace); a present string is non-empty |
| UploadPipeline.PostSource | app/logical/upload_service.rb:103-105 | a source only for a present upload source: the canonical URL when there is one, else the raw source |
| UploadPipeline.CommentaryTagsFor | app/logical/upload_service.rb:115-118 | each of the four tags is added exactly when its flag is set |
| UploadPipeline.UgoiraOf | app/logical/upload_service.rb:72 | the ugoira entry exactly when the context is present and its "ugoira" entry is truthy |
| UploadPipeline.MaterializeSucceedsIff | app/logical/upload_service.rb:68-92 | materialisation raises nothing exactly when the post saves and each requested dependent record is created |
| UploadPipeline.ProcessingSucceedsIff | app/logical/upload_service.rb:51-55 | processing raises nothing exactly when every step succeeds in turn, that is, when materialisation is reached and raises nothing; a file-acquisition error is the one reported |
| UploadPipeline.ErrorStatus | app/logical/upload_service.rb:35 | the error status starts with "error: ", ends with the exception's message, and is ten characters longer than class name and message together (the "error: " and the " - ") |
| UploadPipeline.ErrorStatusIsDistinct | app/logical/upload_service.rb:35 | an error status starts with "error: " and is never "pending", "processing" or "completed" |

## Left out

- Network: the Twitter API client's `status` and `image_urls` are oracle functions. Every status request is logged, but nothing about the network is modelled.
- Validation: `Upload#invalid?` is an oracle that never raises, although the source would rescue an exception from it into the error status.
- Sources: `Sources::Strategies.find(...).canonical_url` never raises in the model, although an exception from it inside `create_post_from_upload` would be rescued into the error status before `@post` is assigned.
- Persistence: `Upload.create!`, `save!`, `Post#save!`, `PixivUgoiraFrameData.create` and `create_artist_commentary` are oracle functions that may raise. Validation internals are not modelled. A non-raising `create` that fails validation is treated as a success.
- `update(...)` is an in-memory assignment that never fails.
- The Preprocessor is not part of this model. Its answers are an input: in progress with a predecessor, completed with the record `finish!` returns, or neither. `finish!`'s own effects are not modelled.
- `Utils.get_file_for_upload` and `Utils.process_file` are not part of this model. They are oracles; the media attributes processing fills in are their result.
- `Sources::Strategies.find(...).canonical_url` is an oracle from source and referer to an optional URL.
- `CurrentUser.as` has no counterpart; only its effect on which user the restart job is scheduled for is modelled.
- Scheduling a job is recorded as an entry in `scheduled`. The job queue itself and a failure to enqueue are not modelled.
- UploadPipeline.UploadService.DelayedStart: a rescue of `ActiveRecord::RecordNotUnique` also catches its subclasses; the model compares the class name exactly.
- The default status "pending" of a new Upload comes from the table schema, which is not part of this model.
- Backtrace lines and exception class names are opaque strings.
- `Post#add_tag`: its tag-string semantics are not modelled; the added tags are a set beside the assigned tag string.
- `Post.new` defaults are not modelled; a source left unassigned is `None`.
- `warnings.full_messages` is the post's list of warning messages.
- UploadPipeline.BuiltPost: when `Post#save!` raises, the unsaved post is given no warnings. The Post model is not part of this model, so whatever its validation leaves in `warnings` is not captured, and `warnings` then returns an empty list.
- UploadPipeline.IndexError: the messages are those of Ruby's NoMethodError and TypeError as written in the model, and the backtrace of these exceptions is empty. A JSON float in the context is not modelled.
- Text.Lower: only ASCII letters are lowercased, while Ruby's `downcase` also maps non-ASCII letters.
- Text.IsPresent: only ASCII whitespace counts as blank, while Rails' `blank?` also treats Unicode spaces as blank.
- Integer width: status IDs are unbounded naturals, as with Ruby's Integer.
- Concurrency: the uniqueness race behind `RecordNotUnique` is modelled only by its observable outcome.
