/**
 * The comment harvester of business/comment_manager.py. The browser is an
 * oracle: every answer the harvester reads from it (the current URL, the
 * performance-log entries, the scroll distance, the response bodies) is part
 * of a Browser value given up front. A log entry is paired with the answer
 * Network.getResponseBody gives if the harvester asks for that entry's
 * request id.
 */
module CommentHarvester {
  import opened Wrappers
  import opened PyJson
  import CommentModel
  import CommentParser
  import UrlExtractor

  type Comment = CommentModel.Comment

  /** The CDP event that announces a response. */
  const ResponseReceived: string := "Network.responseReceived"

  /** The URL fragment of the comment-page API. */
  const CommentPagePath: string := "api/sns/web/v2/comment/page"

  /** What Network.getResponseBody does for a request id: raise, answer without `body`, or give the body decoded as JSON (None when it is not JSON). */
  datatype FetchAnswer = FetchRaised | NoBody | Body(decoded: Option<Json>)

  /**
   * One performance-log entry: its `message.message` object (None when the
   * entry has no readable message), and the body fetch's answer for it.
   */
  datatype Observed = Observed(message: Option<Json>, answer: FetchAnswer)

  /**
   * One scroll iteration as the browser plays it: the log length read before
   * scrolling, the scroll distance, and the log read afterwards; or a browser
   * call that raised.
   */
  datatype Round = Round(logsBefore: nat, distance: int, logsAfter: seq<Observed>) | BrowserFailed

  /** The browser's answers: get_current_url (None when it raises), the first get_network_logs, and each scroll iteration. */
  datatype Browser = Browser(currentUrl: Option<string>, initialLogs: Option<seq<Observed>>, rounds: nat -> Round)

  /**
   * How the harvester treats an entry: not a comment-API response at all, a
   * comment-API response it counts but does not fetch, or a candidate whose
   * request id it looks up in the processed set.
   */
  datatype Sighting = Other | ApiOnly | Candidate(requestId: Json)

  /** The per-phase state: the processed request ids (as set members), the comments so far, the ids whose bodies were parsed, and the counter of comment-API responses. */
  datatype Pass = Pass(processed: set<Json>, comments: seq<Comment>, consumed: seq<Json>, apiResponses: nat)

  const EmptyPass := Pass({}, [], [], 0)

  /** message['params']['response']['url'] */
  function ResponseUrl(m: Json): Result<Json>
  {
    var params :- Index(m, "params");
    var response :- Index(params, "response");
    Index(response, "url")
  }

  /** message['params']['requestId'] */
  function RequestId(m: Json): Result<Json>
  {
    var params :- Index(m, "params");
    Index(params, "requestId")
  }

  /** The note filter is on when a non-empty note id is given. */
  predicate FilterActive(noteId: Option<string>)
  {
    noteId.Some? && noteId.value != ""
  }

  /** `f'note_id={note_id}' in response_url` */
  predicate MentionsNote(url: Json, noteId: string)
  {
    In("note_id=" + noteId, url) == Ok(true)
  }

  /** The entry is a responseReceived event whose URL contains the comment-page fragment. */
  predicate IsCommentApi(message: Option<Json>)
  {
    && message.Some?
    && Index(message.value, "method") == Ok(JStr(ResponseReceived))
    && ResponseUrl(message.value).Ok?
    && In(CommentPagePath, ResponseUrl(message.value).value) == Ok(true)
  }

  /**
   * The per-entry checks of both harvesting loops. Any exception along the way
   * ends the entry: before the counter it is Other, after it ApiOnly. In the
   * scroll loop the URL is also sliced for a log line, which a dict refuses.
   */
  function Classify(message: Option<Json>, noteId: Option<string>, scrolling: bool): (s: Sighting)
    ensures s != Other <==> IsCommentApi(message)
  {
    if !IsCommentApi(message) then Other
    else
      var m := message.value;
      var url := ResponseUrl(m).value;
      match RequestId(m)
      case Raised(_) => ApiOnly
      case Ok(rid) =>
        if FilterActive(noteId) && !MentionsNote(url, noteId.value) then ApiOnly
        else if !Hashable(rid) then ApiOnly
        else if scrolling && url.JObj? then ApiOnly
        else Candidate(rid)
  }

  /**
   * An entry is a candidate exactly when it is a comment-API response with a
   * hashable request id whose URL names the note (when a note id is given);
   * the scroll loop also needs a sliceable URL.
   */
  lemma CandidateConditions(message: Option<Json>, noteId: Option<string>, scrolling: bool, rid: Json)
    ensures Classify(message, noteId, scrolling) == Candidate(rid) <==>
      && IsCommentApi(message)
      && RequestId(message.value) == Ok(rid)
      && (FilterActive(noteId) ==> MentionsNote(ResponseUrl(message.value).value, noteId.value))
      && Hashable(rid)
      && (scrolling ==> !ResponseUrl(message.value).value.JObj?)
  {
  }

  /** One entry of a harvesting loop. */
  function Step(p: Pass, obs: Observed, noteId: Option<string>, scrolling: bool): Pass
  {
    Handle(p, Classify(obs.message, noteId, scrolling), obs.answer)
  }

  /** What an entry classified as `sighting`, with the fetch answer `answer`, does to the state. */
  function Handle(p: Pass, sighting: Sighting, answer: FetchAnswer): Pass
  {
    match sighting
    case Other => p
    case ApiOnly => p.(apiResponses := p.apiResponses + 1)
    case Candidate(rid) =>
      var counted := p.(apiResponses := p.apiResponses + 1);
      if PyKey(rid) in p.processed then counted
      else
        match answer
        case Body(decoded) =>
          var marked := counted.(processed := p.processed + {PyKey(rid)});
          // the id is sliced for a log line before the body is parsed: only a str survives
          if rid.JStr? then
            marked.(comments := p.comments + CommentParser.ParsedComments(decoded), consumed := p.consumed + [rid])
          else marked
        case _ => counted
  }

  /** A harvesting loop over a list of entries. */
  function Scan(p: Pass, logs: seq<Observed>, noteId: Option<string>, scrolling: bool): Pass
  {
    if logs == [] then p else Step(Scan(p, logs[..|logs| - 1], noteId, scrolling), logs[|logs| - 1], noteId, scrolling)
  }

  /** The number of comment-API responses among the entries. */
  function CountApi(logs: seq<Observed>): (n: nat)
    ensures n <= |logs|
  {
    if logs == [] then 0 else CountApi(logs[..|logs| - 1]) + if IsCommentApi(logs[|logs| - 1].message) then 1 else 0
  }

  /**
   * The counter counts every comment-API response, before the note filter,
   * before the processed check and whatever the fetch gives.
   */
  lemma {:induction false} ScanCountsApi(p: Pass, logs: seq<Observed>, noteId: Option<string>, scrolling: bool)
    ensures Scan(p, logs, noteId, scrolling).apiResponses == p.apiResponses + CountApi(logs)
  {
    if logs != [] {
      ScanCountsApi(p, logs[..|logs| - 1], noteId, scrolling);
    }
  }

  /** An unreadable entry is skipped; a fetch that raises or has no body marks nothing and adds nothing, so the id stays eligible. */
  lemma FailuresSkipped(p: Pass, obs: Observed, noteId: Option<string>, scrolling: bool)
    ensures obs.message.None? ==> Step(p, obs, noteId, scrolling) == p
    ensures !obs.answer.Body? ==>
      var q := Step(p, obs, noteId, scrolling);
      q.processed == p.processed && q.comments == p.comments && q.consumed == p.consumed
  {
  }

  /** The processed set only grows, and the comments and consumed ids are only appended to. */
  lemma {:induction false} ScanGrows(p: Pass, logs: seq<Observed>, noteId: Option<string>, scrolling: bool)
    ensures var q := Scan(p, logs, noteId, scrolling);
      p.processed <= q.processed && p.comments <= q.comments && p.consumed <= q.consumed
  {
    if logs != [] {
      ScanGrows(p, logs[..|logs| - 1], noteId, scrolling);
    }
  }

  /** Every parsed id is marked processed, and no two parsed ids are the same set member. */
  predicate ParsedOnce(p: Pass)
  {
    && (forall k :: 0 <= k < |p.consumed| ==> PyKey(p.consumed[k]) in p.processed)
    && (forall j, k :: 0 <= j < k < |p.consumed| ==> PyKey(p.consumed[j]) != PyKey(p.consumed[k]))
  }

  /** Each request id's body is parsed at most once per phase. */
  lemma {:induction false} ScanParsesOnce(p: Pass, logs: seq<Observed>, noteId: Option<string>, scrolling: bool)
    requires ParsedOnce(p)
    ensures ParsedOnce(Scan(p, logs, noteId, scrolling))
  {
    if logs != [] {
      ScanParsesOnce(p, logs[..|logs| - 1], noteId, scrolling);
      StepParsesOnce(Scan(p, logs[..|logs| - 1], noteId, scrolling), logs[|logs| - 1], noteId, scrolling);
    }
  }

  /** One entry parses a body only for an id not yet processed, and marks it. */
  lemma StepParsesOnce(p: Pass, obs: Observed, noteId: Option<string>, scrolling: bool)
    requires ParsedOnce(p)
    ensures ParsedOnce(Step(p, obs, noteId, scrolling))
  {
    var q := Step(p, obs, noteId, scrolling);
    StepShape(p, obs, noteId, scrolling);
    if q.consumed != p.consumed {
      var rid := q.consumed[|p.consumed|];
      assert q.consumed == p.consumed + [rid];
      forall j, k | 0 <= j < k < |q.consumed|
        ensures PyKey(q.consumed[j]) != PyKey(q.consumed[k])
      {
        if k < |p.consumed| {
          assert q.consumed[j] == p.consumed[j] && q.consumed[k] == p.consumed[k];
        } else {
          assert PyKey(q.consumed[j]) in p.processed;
        }
      }
    }
  }

  /** One entry only grows the processed set, and appends at most one parsed id, one not processed before but marked now. */
  lemma StepShape(p: Pass, obs: Observed, noteId: Option<string>, scrolling: bool)
    ensures var q := Step(p, obs, noteId, scrolling);
      && p.processed <= q.processed
      && (q.consumed == p.consumed
          || (&& |q.consumed| == |p.consumed| + 1 && q.consumed[..|p.consumed|] == p.consumed
              && PyKey(q.consumed[|p.consumed|]) !in p.processed
              && PyKey(q.consumed[|p.consumed|]) in q.processed))
  {
    var q := Step(p, obs, noteId, scrolling);
    match Classify(obs.message, noteId, scrolling)
    case Candidate(rid) =>
      if PyKey(rid) !in p.processed && obs.answer.Body? && rid.JStr? {
        assert q.consumed == p.consumed + [rid];
        assert q.consumed[..|p.consumed|] == p.consumed;
      }
    case _ =>
  }

  /** The log entries a scroll iteration inspects: those at or after the length read before scrolling. */
  function NewEntries(logsAfter: seq<Observed>, logsBefore: nat): seq<Observed>
  {
    if logsBefore <= |logsAfter| then logsAfter[logsBefore..] else []
  }

  /** Where the scroll loop ended: the last state, the iterations that ran to completion, and why it stopped. */
  datatype Run = Run(pass: Pass, iterations: nat, stoppedEarly: bool, failed: bool)

  /** _scroll_page from iteration i on, with the state p. */
  function ScrollFrom(b: Browser, noteId: Option<string>, scrollCount: int, i: nat, p: Pass): Run
    decreases scrollCount - i
  {
    if i >= scrollCount then Run(p, i, false, false)
    else
      match b.rounds(i)
      case BrowserFailed => Run(p, i, false, true)
      case Round(before, distance, after) =>
        var q := Scan(p.(apiResponses := 0), NewEntries(after, before), noteId, true);
        if q.apiResponses == 0 && distance == 0 then Run(q, i + 1, true, false)
        else ScrollFrom(b, noteId, scrollCount, i + 1, q)
  }

  /** _scroll_page with a fresh processed set. */
  function ScrollRun(b: Browser, noteId: Option<string>, scrollCount: int): Run
  {
    ScrollFrom(b, noteId, scrollCount, 0, EmptyPass)
  }

  /** The scroll rounds share one processed set: across all rounds each request id's body is parsed at most once. */
  lemma {:induction false} ScrollParsesOnce(b: Browser, noteId: Option<string>, scrollCount: int, i: nat, p: Pass)
    requires ParsedOnce(p)
    ensures ParsedOnce(ScrollFrom(b, noteId, scrollCount, i, p).pass)
    decreases scrollCount - i
  {
    if i < scrollCount && b.rounds(i).Round? {
      var rd := b.rounds(i);
      var q := Scan(p.(apiResponses := 0), NewEntries(rd.logsAfter, rd.logsBefore), noteId, true);
      ScanParsesOnce(p.(apiResponses := 0), NewEntries(rd.logsAfter, rd.logsBefore), noteId, true);
      if !(q.apiResponses == 0 && rd.distance == 0) {
        ScrollParsesOnce(b, noteId, scrollCount, i + 1, q);
      }
    }
  }

  /** The loop runs at most scroll_count iterations, and none when scroll_count is not positive. */
  lemma {:induction false} ScrollBound(b: Browser, noteId: Option<string>, scrollCount: int, i: nat, p: Pass)
    ensures var r := ScrollFrom(b, noteId, scrollCount, i, p);
      i <= r.iterations && (i < scrollCount ==> r.iterations <= scrollCount) && (i >= scrollCount ==> r.iterations == i)
    decreases scrollCount - i
  {
    if i < scrollCount && b.rounds(i).Round? {
      var rd := b.rounds(i);
      var q := Scan(p.(apiResponses := 0), NewEntries(rd.logsAfter, rd.logsBefore), noteId, true);
      if !(q.apiResponses == 0 && rd.distance == 0) {
        ScrollBound(b, noteId, scrollCount, i + 1, q);
      }
    }
  }

  /** The whole scroll loop runs at most max(scroll_count, 0) iterations. */
  lemma ScrollRunBound(b: Browser, noteId: Option<string>, scrollCount: int)
    ensures ScrollRun(b, noteId, scrollCount).iterations <= if scrollCount < 0 then 0 else scrollCount
  {
    ScrollBound(b, noteId, scrollCount, 0, EmptyPass);
  }

  /**
   * An iteration ends the loop early exactly when its new entries hold no
   * comment-API response and the page did not move; zero responses with a
   * non-zero distance go on to the next iteration.
   */
  lemma EarlyStop(b: Browser, noteId: Option<string>, scrollCount: int, i: nat, p: Pass)
    requires i < scrollCount && b.rounds(i).Round?
    ensures var rd := b.rounds(i);
      var q := Scan(p.(apiResponses := 0), NewEntries(rd.logsAfter, rd.logsBefore), noteId, true);
      var r := ScrollFrom(b, noteId, scrollCount, i, p);
      && (CountApi(NewEntries(rd.logsAfter, rd.logsBefore)) == 0 && rd.distance == 0 ==> r == Run(q, i + 1, true, false))
      && (CountApi(NewEntries(rd.logsAfter, rd.logsBefore)) != 0 || rd.distance != 0 ==> r == ScrollFrom(b, noteId, scrollCount, i + 1, q))
  {
    var rd := b.rounds(i);
    ScanCountsApi(p.(apiResponses := 0), NewEntries(rd.logsAfter, rd.logsBefore), noteId, true);
  }

  /** A browser call that raises ends the loop with everything gathered before it. */
  lemma FailureKeepsGathered(b: Browser, noteId: Option<string>, scrollCount: int, i: nat, p: Pass)
    requires i < scrollCount && b.rounds(i).BrowserFailed?
    ensures ScrollFrom(b, noteId, scrollCount, i, p).pass == p
  {
  }

  /** The scroll loop only appends to what it has gathered. */
  lemma {:induction false} ScrollKeepsGathered(b: Browser, noteId: Option<string>, scrollCount: int, i: nat, p: Pass)
    ensures p.comments <= ScrollFrom(b, noteId, scrollCount, i, p).pass.comments
    decreases scrollCount - i
  {
    if i < scrollCount && b.rounds(i).Round? {
      var rd := b.rounds(i);
      var q := Scan(p.(apiResponses := 0), NewEntries(rd.logsAfter, rd.logsBefore), noteId, true);
      ScanGrows(p.(apiResponses := 0), NewEntries(rd.logsAfter, rd.logsBefore), noteId, true);
      if !(q.apiResponses == 0 && rd.distance == 0) {
        ScrollKeepsGathered(b, noteId, scrollCount, i + 1, q);
      }
    }
  }

  /** Two browsers whose iterations from i on agree on the scroll distance and the new log entries give the same run: older entries are never inspected. */
  lemma {:induction false} OnlyNewEntriesInspected(b1: Browser, b2: Browser, noteId: Option<string>, scrollCount: int, i: nat, p: Pass)
    requires forall k: nat :: i <= k < scrollCount ==>
      (b1.rounds(k).BrowserFailed? <==> b2.rounds(k).BrowserFailed?) &&
      (b1.rounds(k).Round? ==>
        b1.rounds(k).distance == b2.rounds(k).distance &&
        NewEntries(b1.rounds(k).logsAfter, b1.rounds(k).logsBefore) == NewEntries(b2.rounds(k).logsAfter, b2.rounds(k).logsBefore))
    ensures ScrollFrom(b1, noteId, scrollCount, i, p) == ScrollFrom(b2, noteId, scrollCount, i, p)
    decreases scrollCount - i
  {
    if i < scrollCount && b1.rounds(i).Round? {
      var rd := b1.rounds(i);
      var q := Scan(p.(apiResponses := 0), NewEntries(rd.logsAfter, rd.logsBefore), noteId, true);
      OnlyNewEntriesInspected(b1, b2, noteId, scrollCount, i + 1, q);
    }
  }

  /**
   * fetch_comments: the note id is the given one, or the one in the current
   * URL; the initial pass over the first log read comes first, then (when
   * scrolling is enabled) the scroll loop's comments, each phase with its own
   * processed set. A missing id or a failing browser call gives [].
   */
  function Fetched(b: Browser, noteId: Option<string>, enableScroll: bool, scrollCount: int): seq<Comment>
  {
    var id :=
      if FilterActive(noteId) then noteId
      else if b.currentUrl.None? then None
      else UrlExtractor.ExtractNoteId(b.currentUrl.value);
    if id.None? || b.initialLogs.None? then []
    else
      Scan(EmptyPass, b.initialLogs.value, id, false).comments
      + if enableScroll then ScrollRun(b, id, scrollCount).pass.comments else []
  }

  /** Without a note id and without one in the current URL, nothing is fetched; a failing first log read gives [] whatever the note id. */
  lemma NoNoteNoComments(b: Browser, noteId: Option<string>, enableScroll: bool, scrollCount: int)
    requires (!FilterActive(noteId) && (b.currentUrl.None? || UrlExtractor.ExtractNoteId(b.currentUrl.value).None?)) || b.initialLogs.None?
    ensures Fetched(b, noteId, enableScroll, scrollCount) == []
  {
  }

  /** With a note id at hand, the result is the initial pass's comments followed by the scroll loop's. */
  lemma FetchedIsInitialThenScroll(b: Browser, noteId: Option<string>, scrollCount: int)
    requires FilterActive(noteId) && b.initialLogs.Some?
    ensures Fetched(b, noteId, false, scrollCount) == Scan(EmptyPass, b.initialLogs.value, noteId, false).comments
    ensures Fetched(b, noteId, true, scrollCount) == Fetched(b, noteId, false, scrollCount) + ScrollRun(b, noteId, scrollCount).pass.comments
    ensures ParsedOnce(Scan(EmptyPass, b.initialLogs.value, noteId, false))
    ensures ParsedOnce(ScrollRun(b, noteId, scrollCount).pass)
  {
    ScanParsesOnce(EmptyPass, b.initialLogs.value, noteId, false);
    ScrollParsesOnce(b, noteId, scrollCount, 0, EmptyPass);
  }

  /**
   * The two phases keep separate processed sets: a response consumed by the
   * initial pass is consumed again when it shows up among the first scroll
   * iteration's new entries, so its comments appear twice.
   */
  lemma PhasesKeepSeparateSets(b: Browser, noteId: Option<string>, scrollCount: int, obs: Observed, rid: Json, d: Option<Json>)
    requires FilterActive(noteId) && b.initialLogs == Some([obs]) && scrollCount >= 1
    requires b.rounds(0).Round? && NewEntries(b.rounds(0).logsAfter, b.rounds(0).logsBefore) == [obs]
    requires obs.answer == Body(d) && rid.JStr? && Classify(obs.message, noteId, true) == Candidate(rid)
    ensures CommentParser.ParsedComments(d) + CommentParser.ParsedComments(d) <= Fetched(b, noteId, true, scrollCount)
  {
    var cs := CommentParser.ParsedComments(d);
    assert [obs][..0] == [];
    CandidateConditions(obs.message, noteId, true, rid);
    CandidateConditions(obs.message, noteId, false, rid);
    assert Scan(EmptyPass, [], noteId, false) == EmptyPass;
    assert Scan(EmptyPass, [], noteId, true) == EmptyPass;
    var initial := Scan(EmptyPass, [obs], noteId, false);
    assert initial.comments == cs;
    var q := Scan(EmptyPass, [obs], noteId, true);
    assert q.comments == cs && q.apiResponses == 1;
    assert EmptyPass.(apiResponses := 0) == EmptyPass;
    assert ScrollRun(b, noteId, scrollCount) == ScrollFrom(b, noteId, scrollCount, 1, q);
    ScrollKeepsGathered(b, noteId, scrollCount, 1, q);
  }

  /** CommentManager: the harvester bound to one browser. */
  class CommentManager {
    const browser: Browser

    constructor (browser: Browser)
      ensures this.browser == browser
    {
      this.browser := browser;
    }

    /** _extract_comments_from_response: the parser's result; nothing it does can raise. */
    method ExtractCommentsFromResponse(decoded: Option<Json>) returns (comments: seq<Comment>)
      ensures comments == CommentParser.ParsedComments(decoded)
    {
      comments := CommentParser.ParseResponse(decoded);
    }

    /**
     * The entry loop both harvesting phases run: count comment-API responses,
     * skip processed ids, mark an id once its body is in hand and append the
     * parsed comments.
     */
    method ScanLogs(logs: seq<Observed>, noteId: Option<string>, scrolling: bool,
                    processed0: set<Json>, comments0: seq<Comment>, ghost consumed0: seq<Json>)
      returns (processed: set<Json>, comments: seq<Comment>, apiResponses: nat, ghost consumed: seq<Json>)
      ensures processed == Scan(Pass(processed0, comments0, consumed0, 0), logs, noteId, scrolling).processed
      ensures comments == Scan(Pass(processed0, comments0, consumed0, 0), logs, noteId, scrolling).comments
      ensures apiResponses == Scan(Pass(processed0, comments0, consumed0, 0), logs, noteId, scrolling).apiResponses
      ensures consumed == Scan(Pass(processed0, comments0, consumed0, 0), logs, noteId, scrolling).consumed
    {
      processed, comments, apiResponses, consumed := processed0, comments0, 0, consumed0;
      var i := 0;
      while i < |logs|
        invariant 0 <= i <= |logs|
        invariant Pass(processed, comments, consumed, apiResponses) == Scan(Pass(processed0, comments0, consumed0, 0), logs[..i], noteId, scrolling)
      {
        assert logs[..i + 1][..i] == logs[..i];
        processed, comments, apiResponses, consumed := ScanEntry(logs[i], noteId, scrolling, processed, comments, apiResponses, consumed);
        i := i + 1;
      }
      assert logs[..i] == logs;
    }

    /** One pass of the entry loop's body. */
    method ScanEntry(obs: Observed, noteId: Option<string>, scrolling: bool,
                     processed0: set<Json>, comments0: seq<Comment>, apiResponses0: nat, ghost consumed0: seq<Json>)
      returns (processed: set<Json>, comments: seq<Comment>, apiResponses: nat, ghost consumed: seq<Json>)
      ensures processed == Step(Pass(processed0, comments0, consumed0, apiResponses0), obs, noteId, scrolling).processed
      ensures comments == Step(Pass(processed0, comments0, consumed0, apiResponses0), obs, noteId, scrolling).comments
      ensures apiResponses == Step(Pass(processed0, comments0, consumed0, apiResponses0), obs, noteId, scrolling).apiResponses
      ensures consumed == Step(Pass(processed0, comments0, consumed0, apiResponses0), obs, noteId, scrolling).consumed
    {
      var sighting := Classify(obs.message, noteId, scrolling);
      processed, comments, apiResponses, consumed := HandleEntry(sighting, obs.answer, processed0, comments0, apiResponses0, consumed0);
    }

    /** The entry loop's body once the entry is classified. */
    method HandleEntry(sighting: Sighting, answer: FetchAnswer,
                       processed0: set<Json>, comments0: seq<Comment>, apiResponses0: nat, ghost consumed0: seq<Json>)
      returns (processed: set<Json>, comments: seq<Comment>, apiResponses: nat, ghost consumed: seq<Json>)
      ensures processed == Handle(Pass(processed0, comments0, consumed0, apiResponses0), sighting, answer).processed
      ensures comments == Handle(Pass(processed0, comments0, consumed0, apiResponses0), sighting, answer).comments
      ensures apiResponses == Handle(Pass(processed0, comments0, consumed0, apiResponses0), sighting, answer).apiResponses
      ensures consumed == Handle(Pass(processed0, comments0, consumed0, apiResponses0), sighting, answer).consumed
    {
      processed, comments, apiResponses, consumed := processed0, comments0, apiResponses0, consumed0;
      if sighting != Other {
        apiResponses := apiResponses + 1;
      }
      if sighting.Candidate? {
        var requestId := sighting.requestId;
        if PyKey(requestId) !in processed && answer.Body? {
          processed := processed + {PyKey(requestId)};
          if requestId.JStr? {
            var found := ExtractCommentsFromResponse(answer.decoded);
            comments := comments + found;
            consumed := consumed + [requestId];
          }
        }
      }
    }

    /**
     * _scroll_page: at most scroll_count iterations, each scanning only the
     * log entries that appeared since its first log read, stopping early
     * after an iteration with no comment-API response and no movement; a
     * browser call that raises returns what was gathered.
     */
    method ScrollPage(scrollCount: int, noteId: Option<string>) returns (comments: seq<Comment>)
      ensures comments == ScrollRun(browser, noteId, scrollCount).pass.comments
    {
      var processed: set<Json> := {};
      comments := [];
      ghost var consumed: seq<Json> := [];
      ghost var pass := EmptyPass;
      var i: nat := 0;
      while i < scrollCount
        invariant pass.processed == processed && pass.comments == comments && pass.consumed == consumed
        invariant ScrollFrom(browser, noteId, scrollCount, i, pass) == ScrollRun(browser, noteId, scrollCount)
        decreases scrollCount - i
      {
        var round := browser.rounds(i);
        if round.BrowserFailed? {
          return comments;
        }
        var newLogs := NewEntries(round.logsAfter, round.logsBefore);
        var newCommentRequests;
        processed, comments, newCommentRequests, consumed := ScanLogs(newLogs, noteId, true, processed, comments, consumed);
        pass := Pass(processed, comments, consumed, newCommentRequests);
        if newCommentRequests == 0 && round.distance == 0 {
          return comments;
        }
        i := i + 1;
      }
    }

    /** fetch_comments */
    method FetchComments(noteId: Option<string>, enableScroll: bool, scrollCount: int) returns (comments: seq<Comment>)
      ensures comments == Fetched(browser, noteId, enableScroll, scrollCount)
    {
      var id: string;
      if FilterActive(noteId) {
        id := noteId.value;
      } else {
        if browser.currentUrl.None? {
          return [];
        }
        var found := UrlExtractor.ExtractNoteId(browser.currentUrl.value);
        if found.None? {
          return [];
        }
        id := found.value;
      }
      if browser.initialLogs.None? {
        return [];
      }
      var processed, initialRequests;
      ghost var consumed;
      processed, comments, initialRequests, consumed := ScanLogs(browser.initialLogs.value, Some(id), false, {}, [], []);
      if enableScroll {
        var scrolled := ScrollPage(scrollCount, Some(id));
        comments := comments + scrolled;
      }
    }
  }
}
