# xiaohongshu-bot comment harvester, in Dafny

This project models the core of xiaohongshu-bot, a Python bot for the
Xiaohongshu (小红书) site. The core is its comment harvester and the pieces
around it:

- **Comment harvesting.** `CommentManager.fetch_comments` reads the browser's
  network log. It picks out the `api/sns/web/v2/comment/page` responses for one
  note and parses each response body at most once per phase; the initial
  pass and the scroll loop keep separate processed sets, and a failed fetch is
  retried by a later entry for the same request. It parses the comments with
  `CommentParser.parse_response`. Optionally it then scrolls the page in
  rounds, repeating the scan over the log entries each round adds, and stops
  early once a round brings neither new comment requests nor scroll movement.
- **Data models.** `Comment` (with pictures, replies and the comment replied
  to), `UserInfo`, `AudioInfo`, `NoteInfo`, `DOMElement` and `PublishContent`,
  each with the dict conversions the Python dataclasses define.
- **Text utilities.**
  - The console listing of comments (`format_comment`, `format_comments`).
  - The note-id extractor for `/explore/<hex>` URLs.
  - The publish-content validator.
- **DOM selector cache.**
  - `DOMCacheManager` keeps a dict of cached elements under `selector:<css>` keys.
  - `DOMManager` is a cache in front of a database mapper.
- **Docstring checker.** `validate_docstrings.py` checks that every module
  starts with a one-line or closed multi-line docstring, and writes a Markdown
  report.
- **Small utilities.**
  - The `retry` and `log_execution` decorators.
  - The `AIClientFactory` and `ContentStyleFactory` registries.
  - The chat-message construction of `BaseAIClient.generate_text`.
  - `LocalLLMClient._messages_to_prompt`.

Python values are modelled explicitly:

- **Decoded JSON.** It is the datatype `PyJson.Json`. A dict is its list of
  items. The parsers assume its keys are distinct, as `json.loads` leaves
  them; the datatype itself does not enforce this, and lookups take the first
  item with the key.
- **Python's dynamic checks.** `d.get`, `d[k]`, `in`, iteration and `int()`
  are functions returning a `Result`. A `Result` is either a value or the exception kind Python would raise
  (`KeyError`, `TypeError`, `AttributeError`, `ValueError`). Truthiness,
  `str()` and the set key of a value never raise, so `Truthy`, `Str` and
  `PyKey` are plain predicates and functions; whether a value is hashable is
  the predicate `Hashable`.
- **Python dicts with string keys.** `PyDicts` models them as insertion-ordered
  item lists. Assigning to an existing key keeps its position.
- **Strings.** They are sequences of characters. `Text` models `strip`,
  `split`, `join`, `lower`, the substring test and `str(int)`.

Everything outside the process is handed in as data: the browser, the network
log, the CDP response bodies, file contents, directory listings, the DOM
mapper's answers and the wrapped functions of the decorators. The harvester's
browser is a `Browser` value. It holds the current URL, the initial log, and
for every scroll round:

- the log length before the round;
- the scroll distance;
- the log after the round.

Each log entry is paired with what fetching its body would give.

`parse_response` replaces the root with `root["data"]` whenever a `data` key
exists (utils.py:26-30), and then looks for `comments` only there. It
does not fall back to the root when `data` lacks `comments`
(`CommentParser.DataShadowsRootComments`). The docstring checker's
"文件只包含注释" exit can never be taken, because the first-code-line search
defaults to line 0. A comment-only file is therefore reported as
"缺少docstring" (`DocstringCheck.CommentOnlyFile`).

## Model

| member | source | states |
|---|---|---|
| Text.Strip | validate_docstrings.py:33 | `s.strip()` is empty exactly for blank text, and otherwise starts and ends with a non-space character |
| Text.SplitJoin | validate_docstrings.py:36 | joining `content.split('\n')` with `'\n'` gives the text back |
| Text.NatToStringValue | utils.py:68 | the digits `str(n)` writes read back as `n` |
| PyJson.Index | core/models/note_info.py:23 | `d[k]` succeeds exactly when the dict has the key and gives its value; a missing key raises KeyError and a non-dict raises TypeError |
| PyJson.Get | core/models/comment.py:28 | `d.get(k, default)` gives the value or the default on a dict, and raises AttributeError on anything else |
| PyJson.In | utils.py:26 | `k in x` is substring search on a str, membership on a list and key membership on a dict; other values raise |
| PyJson.Iterate | utils.py:35 | iterating succeeds on lists, dicts and strings and raises TypeError otherwise |
| PyJson.ToInt | core/models/comment.py:63 | `int(x)` keeps ints, maps bools to 0/1, parses stripped decimal text and raises ValueError or TypeError otherwise |
| PyJson.IntRoundTrip | core/models/comment.py:63 | `int(str(n)) == n` for every integer |
| PyJson.ParseIntegerOfText | core/models/comment.py:63 | the decimal text of any integer, sign included, parses back to that integer |
| PyJson.PyKey | business/comment_manager.py:175 | the set key of a request id: True and 1 are the same key, and hashable values stay hashable |
| UserInfoModel.FromDict | core/models/user_info.py:14-20 | a dict gives each field copied or defaulted ("", "未知用户", ""); anything else raises AttributeError |
| UserInfoModel.FromEmptyDict | core/models/user_info.py:8-10 | an empty dict gives the dataclass defaults |
| UserInfoModel.IgnoresOtherKeys | core/models/user_info.py:16-20 | only `user_id`, `nickname` and `avatar` matter |
| AudioInfoModel.FromDict | core/models/audio_info.py:14-22 | a falsy value gives None, a truthy non-dict raises AttributeError, and a dict copies or defaults the three fields |
| AudioInfoModel.IgnoresOtherKeys | core/models/audio_info.py:18-22 | only the three audio keys matter for a non-empty dict |
| CommentModel.FirstTruthy | core/models/comment.py:37-43 | the `or`-chain gives a truthy probe, and gives none exactly when every probe is falsy |
| CommentModel.PictureUrl | core/models/comment.py:35-47 | a string picture is kept, a non-dict non-string one is skipped, and a dict yields only a truthy URL |
| CommentModel.PictureUrlIsFirstTruthyProbe | core/models/comment.py:37-43 | a dict picture's URL is the first truthy one of url_default, url, url_pre, info.url and info.url_default |
| CommentModel.EarlyProbeWins | core/models/comment.py:37-43 | a truthy url_default, url or url_pre is the picture URL whatever `info` holds, since the `or` chain stops before `info.get` |
| CommentModel.PictureInfoNotDict | core/models/comment.py:41 | when the first three probes are falsy and `info` is not a dict, the lookup raises AttributeError |
| CommentModel.FirstTruthyAppend | core/models/comment.py:37-43 | an `or`-chain over two stretches of probes answers from the first stretch when it can |
| CommentModel.CollectPicturesFails | core/models/comment.py:33-47 | collecting pictures fails exactly when some picture's URL lookup raises |
| CommentModel.StringPicturesKept | core/models/comment.py:46-47 | a list of string pictures is kept as it is |
| CommentModel.CollectPicturesSnoc | core/models/comment.py:34-47 | one more picture appends its URL, if any, in order |
| CommentModel.CollectPicturesPrefixFails | core/models/comment.py:34-45 | a failure in a prefix of the pictures fails the whole list with the same error |
| CommentModel.NoPicturesField | core/models/comment.py:33 | without a truthy `pictures` field the list is empty |
| CommentModel.AsTarget | core/models/comment.py:55-57 | parsing the replied-to comment propagates its error or wraps its value |
| CommentModel.RepliesPrefixOneToOne | core/models/comment.py:50-52 | every reply in a prefix of `sub_comments` is parsed one-to-one, in order, and one failure fails them all |
| CommentModel.RepliesOneToOne | core/models/comment.py:50-52 | the replies are the parsed `sub_comments` elements, one-to-one and in order |
| CommentModel.RepliesPrefixFails | core/models/comment.py:51-52 | once a reply fails, longer prefixes fail with the same error |
| CommentModel.CommentFields | core/models/comment.py:26-70 | a parsed comment copies id, content and ip_location, converts the counts with `int()`, has no create_time, and holds its parsed user, audio and pictures |
| CommentModel.CommentFailures | core/models/comment.py:26-70 | a non-dict raises AttributeError, and a count `int()` rejects fails the comment |
| CommentModel.RepliesAndTarget | core/models/comment.py:49-57 | replies come from `sub_comments` (none without it); a target exists exactly for a truthy `target_comment` and is its parse |
| CommentModel.ReplyFailureFailsParent | core/models/comment.py:51-52 | a reply that cannot be parsed fails its parent comment |
| CommentModel.UrlDefaultExample | core/models/comment.py:38 | a non-empty `url_default` is the picture URL |
| CommentModel.InfoUrlExample | core/models/comment.py:41 | a URL nested under `info` is found |
| CommentModel.PicturesExample | core/models/comment.py:32-47 | two dict pictures of different shapes give both URLs in order |
| CommentModel.FromDict | core/models/comment.py:26-70 | the recursive parser returns exactly the specified result for every input |
| CommentModel.CommentOfSteps | core/models/comment.py:26-70 | a successful parse went through every step: the dict, its user, audio, pictures, replies, target and both counts each parsed, and the comment is assembled from them |
| CommentModel.ToDict | core/models/comment.py:72-84 | `to_dict` gives a dict |
| CommentModel.ToDictKeys | core/models/comment.py:74-84 | `to_dict` has exactly six keys in order |
| CommentModel.ToDictFields | core/models/comment.py:75-83 | each key of `to_dict` holds its field, and user_info keeps only user_id and nickname |
| CommentModel.ToDictLookups | core/models/comment.py:74-84 | reading `to_dict`'s output with `from_dict`'s lookups finds the copied fields and none of id, audio, pictures, replies or target |
| CommentModel.ToDictReadBack | core/models/comment.py:26-84 | `from_dict(to_dict(c))` succeeds and loses the id (renamed comment_id), avatar, audio, pictures, replies and target |
| CommentParser.Harvest | utils.py:35-43 | the kept comments are never more than the elements |
| CommentParser.DataWithoutFallback | utils.py:26-27 | with a `data` key, only `root["data"]` is searched |
| CommentParser.DataShadowsRootComments | utils.py:26-30 | comments at the root are ignored when `data` holds none |
| CommentParser.NoCommentsKey | utils.py:29-30 | a payload without `comments` gives no comments, and so does undecodable text |
| CommentParser.HarvestAppend | utils.py:35-43 | parsing two stretches of elements concatenates their comments |
| CommentParser.SkipsFailingElement | utils.py:36-41 | an element that fails to parse is skipped and the others are kept |
| CommentParser.HarvestAllParse | utils.py:35-43 | when every element parses, the comments are those parses, one-to-one and in order |
| CommentParser.HarvestFromElements | utils.py:35-43 | every comment returned is the parse of some element |
| CommentParser.ParseResponse | utils.py:13-50 | the loop returns exactly the specified comments, and every error path gives the empty list |
| CommentParser.HarvestElements | utils.py:35-41 | the loop over the comment elements keeps exactly the parses that succeed, in order |
| CommentParser.PictureEntries | utils.py:81-82 | one line per picture |
| CommentParser.PictureEntriesIndented | utils.py:81-82 | every picture line starts with the indentation |
| CommentParser.CommentLinesShape | utils.py:63-84 | every line of a formatted comment starts with the indentation, and there are 6 lines, plus 2 for audio, plus 1 and one per picture |
| CommentParser.FormatComment | utils.py:53-84 | the method builds exactly the specified text |
| CommentParser.AudioSection | utils.py:74-76 | a voice comment adds its tag line and its recognised-text line; any other comment adds nothing |
| CommentParser.PictureSection | utils.py:79-82 | no pictures add nothing; otherwise a count line, then one line per picture numbered from 1 |
| CommentParser.Block | utils.py:101-119 | each comment's block has at least its number, its text and the rule |
| CommentParser.Blocks | utils.py:101-119 | n comments give at least 3n lines |
| CommentParser.HeaderText | utils.py:99 | the header is a blank line, the rule of 80 "=", the count line, and the rule followed by a blank line |
| CommentParser.FormattedCommentsShape | utils.py:96-121 | no comments gives "暂无评论"; otherwise the header, then the blocks |
| CommentParser.ReplySection | utils.py:106-117 | the loop builds exactly the specified reply lines |
| CommentParser.FormatComments | utils.py:87-121 | the method builds exactly the specified listing |
| CommentParser.CommentBlock | utils.py:101-119 | a comment's block is its number, its text at indent 0, its reply section and the closing rule of 80 "-" |
| CommentParser.ReplySectionEntry | utils.py:108-117 | a reply gives its number line, its text at indent 2 and its reply-to line, if any |
| CommentParser.TargetSection | utils.py:111-117 | a reply with a target gives one line naming the target's nickname and id, "未知" for a falsy id; otherwise nothing |
| UrlExtractor.RunEnd | utils.py:137 | `[a-f0-9]+` takes the longest run of id characters |
| UrlExtractor.MatchFrom | utils.py:137 | the search finds the leftmost match |
| UrlExtractor.LeftmostMatch | utils.py:137 | when the text before a `/explore/` has no match, the leftmost match is that marker exactly when an id character follows it |
| UrlExtractor.WholeRun | utils.py:137-139 | an id followed by a non-id character or the end of the URL is taken whole |
| UrlExtractor.ExtractNoteId | utils.py:128-140 | None exactly when no `/explore/<hex>` occurs; otherwise the maximal id after the leftmost match, non-empty and all hex |
| UrlExtractor.ExtractsFirstId | utils.py:137-139 | a URL whose first `/explore/` is followed by an id and a non-id character gives that id |
| DataValidator.ValidatePublishContent | utils.py:147-169 | invalid exactly when content or title is blank or the title exceeds 100 characters |
| PublishContentModel.Make | core/models/publish_content.py:9-12 | description defaults to "" and tags to [] |
| PublishContentModel.Validate | core/models/publish_content.py:14-16 | true exactly when the content and the title are both non-empty |
| PublishContentModel.ValidateIgnoresExtras | core/models/publish_content.py:14-16 | the description and the tags are not consulted |
| PublishContentModel.ValidatorImpliesValidate | core/models/publish_content.py:14-16 | content the validator accepts also passes `PublishContent.validate` |
| PublishContentModel.ValidateIsWeaker | core/models/publish_content.py:14-16 | `validate` accepts whitespace and over-long titles that the validator refuses |
| NoteInfoModel.FromDict | core/models/note_info.py:18-30 | a dict parses exactly when its author, if present, is a dict; fields are copied or defaulted and create_time stays None |
| NoteInfoModel.NullAuthorRaises | core/models/note_info.py:21-23 | `"author": null` raises AttributeError |
| NoteInfoModel.FromFullDict | core/models/note_info.py:18-30 | a complete dict gives all its fields and the parsed author |
| DomElementModel.ToDict | core/models/dom_element.py:20-31 | eight keys in order |
| DomElementModel.FromDict | core/models/dom_element.py:33-53 | a non-dict raises AttributeError; success needs the three required keys and a readable timestamp; a missing key raises KeyError; optional fields default to None |
| DomElementModel.RoundTrip | core/models/dom_element.py:20-53 | `from_dict(to_dict(e)) == e` whenever fromisoformat reads back the timestamp isoformat wrote |
| DomElementModel.TimestampReadBack | core/models/dom_element.py:28-39 | the `updated_at` key written by `to_dict` reads back as the element's own timestamp, or None when it has none |
| DomManagerModel.SelectorKeyInjective | core/dom_manager.py:102 | different selectors get different cache keys |
| DomManagerModel.CacheGet | core/dom_manager.py:51-60 | a missing key gives None |
| DomManagerModel.CachedElement | core/dom_manager.py:93-106 | a falsy or missing entry is a miss; a truthy entry gives the element `from_dict` reads from it, or `from_dict`'s exception |
| DomManagerModel.StoredElementFound | core/dom_manager.py:93-116 | after storing an element under its selector, looking the selector up gives it back |
| DomManagerModel.OtherSelectorsUnaffected | core/dom_manager.py:108-128 | storing or deleting one selector leaves every other selector's lookup unchanged |
| DomManagerModel.RemovedSelectorMisses | core/dom_manager.py:87-128 | after deleting or clearing, the lookup misses |
| DomManagerModel.DomCacheManager.GetFromCache | core/dom_manager.py:51-60 | returns the cached value or None |
| DomManagerModel.DomCacheManager.SetToCache | core/dom_manager.py:62-70 | stores the value and keeps every other entry |
| DomManagerModel.DomCacheManager.DeleteFromCache | core/dom_manager.py:72-85 | reports whether the key was present, and removes it |
| DomManagerModel.DomCacheManager.ClearCache | core/dom_manager.py:87-91 | empties the cache |
| DomManagerModel.DomCacheManager.GetElementBySelector | core/dom_manager.py:93-106 | returns exactly the specified lookup |
| DomManagerModel.DomCacheManager.SetElementBySelector | core/dom_manager.py:108-116 | stores `to_dict(e)` under the selector's key |
| DomManagerModel.DomCacheManager.DeleteElementBySelector | core/dom_manager.py:118-128 | removes the selector's key, reporting whether it was there |
| DomManagerModel.InitialElement | core/dom_manager.py:212-219 | an initial element has the id, the selector, type "selector", the page URL and the description "初始选择器: id" |
| DomManagerModel.DomManager.GetElement | core/dom_manager.py:144-168 | a cache hit or error is returned with the cache untouched; on a miss the mapper's element is cached and returned |
| DomManagerModel.DomManager.InsertElement | core/dom_manager.py:170-185 | a successful insert caches the element under its selector; a failed one changes nothing |
| DomManagerModel.DomManager.UpdateElement | core/dom_manager.py:187-202 | a successful update drops the selector's cache entry; a failed one changes nothing |
| DomManagerModel.DomManager.BatchInsertInitialElements | core/dom_manager.py:204-227 | one initial element per selector, in order; the cache is cleared exactly when there were selectors and the insert succeeded |
| CommentHarvester.Classify | business/comment_manager.py:161-178 | an entry counts as a comment request exactly when it is a `Network.responseReceived` for the comment-page API |
| CommentHarvester.CandidateConditions | business/comment_manager.py:166-178 | an entry is fetched exactly when it is a comment request with a request id, matches the note filter and is hashable; while scrolling, its URL must also be sliceable |
| CommentHarvester.CountApi | business/comment_manager.py:166-167 | no more comment requests than entries |
| CommentHarvester.ScanCountsApi | business/comment_manager.py:159-201 | the scan counts exactly the comment requests among the entries |
| CommentHarvester.FailuresSkipped | business/comment_manager.py:196-201 | an unreadable entry changes nothing, and a failed fetch leaves the set and the comments alone |
| CommentHarvester.ScanGrows | business/comment_manager.py:161-201 | the processed ids and the comments only grow |
| CommentHarvester.ScanParsesOnce | business/comment_manager.py:175-193 | no response body is parsed twice under the same request id within one set |
| CommentHarvester.StepShape | business/comment_manager.py:175-193 | one entry only grows the processed ids, and parses a body only under a request id not yet processed, which it then adds |
| CommentHarvester.StepParsesOnce | business/comment_manager.py:175-193 | one entry keeps every parsed body under a distinct request id |
| CommentHarvester.ScrollParsesOnce | business/comment_manager.py:71-201 | the scroll rounds share one processed set, so across all rounds no request id's body is parsed twice |
| CommentHarvester.ScrollBound | business/comment_manager.py:124-211 | the scroll loop runs at most scroll_count rounds |
| CommentHarvester.ScrollRunBound | business/comment_manager.py:124 | a negative or zero scroll_count means no rounds |
| CommentHarvester.EarlyStop | business/comment_manager.py:203-211 | a round with no comment requests and zero distance ends the loop; any other round continues |
| CommentHarvester.FailureKeepsGathered | business/comment_manager.py:221-225 | a browser failure returns the comments gathered so far |
| CommentHarvester.ScrollKeepsGathered | business/comment_manager.py:124-225 | scrolling never loses a gathered comment |
| CommentHarvester.OnlyNewEntriesInspected | business/comment_manager.py:125-161 | only the log entries after `logs_before` affect the result |
| CommentHarvester.NoNoteNoComments | business/comment_manager.py:240-323 | without a note id, either given or read from the current URL, the result is empty; a failing first log read gives the empty result whatever the note id |
| CommentHarvester.FetchedIsInitialThenScroll | business/comment_manager.py:252-318 | the result is the initial scan's comments, followed by the scroll loop's when scrolling is on; within each of the two phases no request id's body is parsed twice |
| CommentHarvester.PhasesKeepSeparateSets | business/comment_manager.py:253-310 | a response seen in the initial log and again while scrolling is parsed twice |
| CommentHarvester.CommentManager.ExtractCommentsFromResponse | business/comment_manager.py:28-55 | the comments `parse_response` gives |
| CommentHarvester.CommentManager.ScanLogs | business/comment_manager.py:161-201 | the loop over log entries computes exactly the specified scan |
| CommentHarvester.CommentManager.ScanEntry | business/comment_manager.py:161-201 | one log entry: an unreadable or unrelated entry changes nothing, a comment request is counted, and a candidate is then handled by its fetch |
| CommentHarvester.CommentManager.HandleEntry | business/comment_manager.py:166-201 | a comment request is counted; an already processed id or a failed fetch changes nothing more; a fetched body marks the id processed and, for a string id, appends the parsed comments |
| CommentHarvester.CommentManager.ScrollPage | business/comment_manager.py:57-225 | the scroll loop returns exactly the specified comments |
| CommentHarvester.CommentManager.FetchComments | business/comment_manager.py:227-324 | returns exactly the specified comments |
| DocstringCheck.FirstCodeLine | validate_docstrings.py:39-44 | the first line that is neither blank nor a comment, or 0 when there is none; always a valid index |
| DocstringCheck.ClosingFrom | validate_docstrings.py:64-65 | the first line of the window holding a triple quote |
| DocstringCheck.DocPieces | validate_docstrings.py:67-72 | the non-blank rest of the opening line plus one piece per line before the closing one |
| DocstringCheck.DocstringValidator.StripLines | validate_docstrings.py:70-71 | the lines strictly between the opening and the closing line, each stripped, in order |
| DocstringCheck.DocResult | validate_docstrings.py:55-58 | a docstring passes exactly when it is not blank, and the result is its stripped text |
| DocstringCheck.LinesVerdict | validate_docstrings.py:39-81 | never "文件只包含注释" or "文件为空", and an accepted docstring is non-empty and trimmed |
| DocstringCheck.Verdict | validate_docstrings.py:28-81 | "文件为空" exactly for blank text; the "only comments" message never occurs; an accepted docstring is non-empty and trimmed |
| DocstringCheck.CommentOnlyFile | validate_docstrings.py:39-81 | a non-blank file of only blank and comment lines gets "缺少docstring" |
| DocstringCheck.AcceptedDocstringStripped | validate_docstrings.py:55-78 | an accepted docstring is its own strip |
| DocstringCheck.ClosingLineTextIgnored | validate_docstrings.py:64-78 | the closing line's text and all later lines do not affect a multi-line docstring's verdict |
| DocstringCheck.DirectoryProblemsSound | validate_docstrings.py:102-116 | each recorded problem is a listed, non-excluded file that failed with that message |
| DocstringCheck.ReportLines | validate_docstrings.py:177-189 | the title, then the count line, then one bullet per problem in order |
| DocstringCheck.ReportShape | validate_docstrings.py:177-189 | the report opens with the title and, without problems, holds only the all-clear line after it |
| DocstringCheck.DocstringValidator.ValidateFile | validate_docstrings.py:18-84 | the method's three loops give exactly the specified verdict, and a failed read reports its reason |
| DocstringCheck.DocstringValidator.ScanFile | validate_docstrings.py:118-138 | a missing file changes nothing; a failing file appends its problem under the given name |
| DocstringCheck.DocstringValidator.ScanDirectory | validate_docstrings.py:86-116 | a missing directory changes nothing; otherwise the problems of the non-excluded failing files are appended in glob order, and `__init__.py` is excluded by default |
| DocstringCheck.DocstringValidator.CheckEntry | validate_docstrings.py:101-116 | an excluded file gives no problem; otherwise a failing file gives one problem with its path and message |
| DocstringCheck.DocstringValidator.ValidateAll | validate_docstrings.py:140-175 | scans business/, core/, utils.py and test_xhs.py in that order, and returns true exactly when no problem was recorded |
| DocstringCheck.DocstringValidator.GenerateReport | validate_docstrings.py:177-189 | the method builds exactly the specified report |
| Decorators.FirstStop | core/decorators.py:21-25 | the first attempt that returns or raises a non-retried exception, or none when all attempts raise retried ones |
| Decorators.RetrySpec | core/decorators.py:8-37 | at most max_attempts calls, numbered from 1; the first value returned wins; a non-retried exception propagates at once; a retried failure on the last attempt is re-raised; one sleep after each failed attempt but the last; no attempts means `raise None` |
| Decorators.Retry | core/decorators.py:19-35 | the attempt loop behaves exactly as specified |
| Decorators.SingleAttemptIsPlainCall | core/decorators.py:21-35 | with one attempt the wrapper is the plain call, without sleeping |
| Decorators.MoreAttemptsKeepStop | core/decorators.py:21-25 | raising max_attempts does not change a call that ended within fewer attempts |
| Decorators.ExhaustedRaisesLast | core/decorators.py:24-35 | when every attempt raises a retried exception, all attempts run and the last exception is re-raised |
| Decorators.LogExecution | core/decorators.py:40-55 | the wrapped call's value or exception passes through unchanged |
| PyDicts.Lookup | core/ai_client.py:342 | a key is found exactly when it is one of the dict's keys |
| PyDicts.Put | core/ai_client.py:327 | assignment keeps an existing key's position and appends a new key |
| PyDicts.PutFinds | core/ai_client.py:327 | after `d[k] = v`, `d[k]` is v |
| PyDicts.PutKeepsOthers | business/xhs_content_styles/style_factory.py:56 | assignment leaves the other keys' values alone |
| PyDicts.PutDistinct | core/ai_client.py:327 | assignment keeps keys distinct |
| AIClients.GenerateText | core/ai_client.py:51-78 | the system message comes first only when the system prompt is truthy; the user message holds the prompt and comes last; temperature is forwarded; no max_tokens |
| AIClients.AIClientFactory.constructor | core/ai_client.py:294-301 | the registry starts with openai and zhipu, and the default is openai |
| AIClients.AIClientFactory.RegisterClient | core/ai_client.py:304-328 | stores under the lower-cased name; a class that is not an AI client raises ValueError and changes nothing; the invariant holds |
| AIClients.AIClientFactory.SetDefaultClient | core/ai_client.py:331-346 | the lower-cased name becomes the default exactly when it is registered; otherwise ValueError and no change |
| AIClients.AIClientFactory.CreateClient | core/ai_client.py:349-376 | creates the class under the lower-cased name or the default; an unknown name raises ValueError; no name never fails |
| AIClients.AIClientFactory.DefaultIsRegistered | core/ai_client.py:341-367 | the default is always a registered, lower-case name |
| AIClients.AIClientFactory.ListClients | core/ai_client.py:379-386 | exactly the registered names |
| AIClients.RegisteredClientIsCreated | core/ai_client.py:327-376 | after registering a class under a name, the key `create_client` computes for any non-empty spelling of that name, in any letter case, finds the class |
| AIClients.EmptyNameCreatesDefault | core/ai_client.py:367 | an empty client name is falsy, so `create_client` looks up the lower-cased default exactly as with no name |
| StyleFactory.ContentStyleFactory.constructor | business/xhs_content_styles/style_factory.py:18-23 | the registry starts with fairy, controversial, provocative and unreasonable |
| StyleFactory.ContentStyleFactory.CreateStyle | business/xhs_content_styles/style_factory.py:26-44 | the class under exactly that name, with no case folding; otherwise ValueError |
| StyleFactory.ContentStyleFactory.RegisterStyle | business/xhs_content_styles/style_factory.py:47-56 | a non-style class raises TypeError and changes nothing; otherwise the name is bound to the class |
| StyleFactory.ContentStyleFactory.AvailableStyles | business/xhs_content_styles/style_factory.py:59-68 | exactly the registered names, in order, each with its class's description |
| StyleFactory.RegisterThenCreate | business/xhs_content_styles/style_factory.py:38-56 | after registering, creating by that name gives the class, and other names are unaffected |
| StyleFactory.InitialDescriptions | business/xhs_content_styles/style_factory.py:18-23 | the built-in names give their classes, the names are distinct and lookups are case-sensitive |
| StyleFactory.AbsentFromInitial | business/xhs_content_styles/style_factory.py:18-23 | a name starting with none of the built-in initials is not registered at start |
| LocalPrompt.Part | custom_ai_example.py:199-207 | a message contributes a part exactly when its role is system, user or assistant |
| LocalPrompt.PromptParts | custom_ai_example.py:198-207 | one part per recognised message |
| LocalPrompt.MessagesToPrompt | custom_ai_example.py:196-210 | the loop builds exactly the parts followed by "Assistant:", joined by blank lines |
| LocalPrompt.PartsAppend | custom_ai_example.py:199-207 | parts follow message order |
| LocalPrompt.UnknownRoleIgnored | custom_ai_example.py:202-207 | a message with another role adds nothing |
| LocalPrompt.PromptEnding | custom_ai_example.py:209-210 | the prompt ends with a blank line and "Assistant:", or is "Assistant:" alone when no message was recognised |
| LocalPrompt.EmptyPrompt | custom_ai_example.py:198-210 | no messages gives exactly "Assistant:" |

## Left out

- JSON text decoding: the parsers receive the decoded value, or None for text `json.loads` rejects. JSON floats are not modelled.
- PyJson.ToInt: `int()` on strings does not model underscores or non-ASCII digits. Floats are not modelled.
- PyJson.Repr: no escaping of quotes or control characters.
- Text.Lower: lower-cases ASCII letters only. Python's `str.lower` folds all of Unicode.
- Logging in every module. `time.sleep`, the retry delay's value and `log_execution`'s timing are not modelled. `Retry` counts sleeps instead.
- The browser and Selenium/CDP calls are not modelled:
  - The scroll container search is left out.
  - Scroll distances are inputs.
  - Any exception from the browser is one `BrowserFailed` outcome for the round or the fetch.
  - The debug dump in `_extract_comments_from_response` is left out.
- The DOM cache's file load and save: the constructor takes the loaded dict. `save_cache` is a no-op for the model, and the cache directory is not created.
- The DOM database mapper (`core/dom_mapper.py` is not part of this model): its answers (stored element, insert or update success) are parameters.
- `DOMElement.from_dict` parses timestamps with `datetime.fromisoformat`, which is a parameter.
- The `glob`, `exists` and `relative_to` path handling of the docstring checker: listings and file contents are inputs, with relative paths given.
- The AI client SDKs (OpenAI, ZhipuAI), `chat`, `is_available`, the HTTP clients of `custom_ai_example.py`, and class instantiation with keyword arguments. Created clients and styles are their class tokens.
- The style prompt classes (prompt text and `random.choice`). The `UnreasonableStyle` class (its file is not part of this model) is passed to the style factory's constructor.
- AIClients.AIClientFactory.RegisterClient: `issubclass` raising TypeError on a non-class is not modelled; every token is a class.
- The class-level registries of both factories are modelled as the fields of one factory object.
