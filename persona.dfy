/** The persona tools: `get_persona` fetches a persona by title, and
    `refresh_persona` replaces a persona's content. Each call reports progress
    to its caller, checks the cached token, sends one request to the backend
    and turns every failure into an `{"error": ...}` dictionary. */
module Persona {
  import opened Envelope
  import opened Text
  import opened UrlQuote

  const GET_PERSONA_PATH := "/mcp/get_persona?title="
  const REFRESH_PERSONA_PATH := "/mcp/refresh_persona"
  const RETRIEVED_NOTE := "Persona retrieved successfully"
  const UPDATED_NOTE := "Persona updated successfully"
  const RETRIEVE_ERROR := "Error retrieving persona: "
  const UPDATE_ERROR := "Error updating persona: "

  // ---------------------------------------------------------------- get_persona

  /** `f"/mcp/get_persona?title={quote(title)}"`. */
  function GetPersonaEndpoint(title: string): string {
    GET_PERSONA_PATH + Quote(title)
  }

  /** How the backend reads the title back out of a `get_persona` endpoint. */
  function TitleOf(endpoint: string): Option<string> {
    var n := |GET_PERSONA_PATH|;
    if |endpoint| >= n && endpoint[..n] == GET_PERSONA_PATH then Unquote(endpoint[n..]) else None
  }

  /** The query value is the quoted title, made only of unreserved
      characters, `/` and `%`, so no title can end the `title` parameter early
      or add another; and the backend reads back exactly the title that was
      asked for. */
  lemma GetPersonaEndpointNamesTitle(title: string)
    ensures var endpoint := GetPersonaEndpoint(title);
      |endpoint| >= |GET_PERSONA_PATH| && endpoint[..|GET_PERSONA_PATH|] == GET_PERSONA_PATH &&
      (forall i | |GET_PERSONA_PATH| <= i < |endpoint| :: IsQuotedChar(endpoint[i])) &&
      TitleOf(endpoint) == Some(title)
  {
    var endpoint := GetPersonaEndpoint(title);
    assert endpoint[|GET_PERSONA_PATH|..] == Quote(title);
    QuoteRoundTrip(title);
  }

  /** Up to the token check: the start note, progress (0, 2), the check. */
  function GetPersonaOpening(title: string): seq<Event> {
    [Info("Retrieving persona '" + title + "'..."), Progress(0, 2), Validate(None)]
  }

  /** After an accepted token: progress (1, 2), a note, the GET request. */
  function GetPersonaSent(title: string): seq<Event> {
    [Progress(1, 2), Info("Fetching persona information..."),
     Request("GET", GetPersonaEndpoint(title), None, None)]
  }

  /** Everything `get_persona(title)` does, given what the auth client answers
      (`valid`) and what the backend answers (`answer`). */
  function GetPersonaRun(title: string, valid: Reply<bool>, answer: Reply<Json>): Run {
    if valid != Returned(true) then
      Run(GetPersonaOpening(title) + Refusal(valid), RefusalResult(valid))
    else
      Run(GetPersonaOpening(title) + GetPersonaSent(title) + Settle(answer, 2, RETRIEVED_NOTE, RETRIEVE_ERROR),
          SettleResult(answer, RETRIEVE_ERROR))
  }

  method GetPersona(ctx: Trace, auth: AuthClient, api: ApiClient, title: string,
                    valid: Reply<bool>, answer: Reply<Json>) returns (r: Json)
    modifies ctx, auth
    ensures old(auth.cached).Some? ==> auth.cached == old(auth.cached)
    ensures ctx.events == old(ctx.events) + GetPersonaRun(title, valid, answer).events
    ensures r == GetPersonaRun(title, valid, answer).result
  {
    ghost var before := ctx.events;
    ctx.NotifyInfo("Retrieving persona '" + title + "'...");
    ctx.ReportProgress(0, 2);
    var checked := auth.ValidateToken(ctx, None, valid);
    assert ctx.events == before + GetPersonaOpening(title);
    if checked.Raised? {
      ctx.NotifyError(UNEXPECTED_NOTE);
      return ErrorDict(UNEXPECTED_PREFIX + checked.exc.text);
    }
    if !checked.value {
      ctx.NotifyError(AUTH_FAILED_NOTE);
      return ErrorDict(AUTH_FAILED_MESSAGE);
    }
    ctx.ReportProgress(1, 2);
    ctx.NotifyInfo("Fetching persona information...");
    var response := api.Request(ctx, "GET", GetPersonaEndpoint(title), None, None, answer);
    assert ctx.events == before + (GetPersonaOpening(title) + GetPersonaSent(title));
    match response {
      case Returned(payload) =>
        ctx.ReportProgress(2, 2);
        ctx.NotifyInfo(RETRIEVED_NOTE);
        r := payload;
      case Raised(ValueError(m)) =>
        ctx.NotifyError(RETRIEVE_ERROR + m);
        r := ErrorDict(RETRIEVE_ERROR + m);
      case Raised(OtherError(m)) =>
        ctx.NotifyError(UNEXPECTED_NOTE);
        r := ErrorDict(UNEXPECTED_PREFIX + m);
    }
  }

  /** Every run ends with the backend's payload, unchanged, after the token
      was accepted, or with an `{"error": ...}` dictionary. */
  lemma GetPersonaClosed(title: string, valid: Reply<bool>, answer: Reply<Json>)
    ensures var run := GetPersonaRun(title, valid, answer);
      IsErrorDict(run.result) || (valid == Returned(true) && answer == Returned(run.result))
  {
    ResultsClosed(valid, answer, RETRIEVE_ERROR);
  }

  lemma GetPersonaOpeningKept(title: string, k: Kind)
    ensures Kept(GetPersonaOpening(title), k) == Keep(Progress(0, 2), k)
  {
    KeptThree(Info("Retrieving persona '" + title + "'..."), Progress(0, 2), Validate(None), k);
  }

  lemma GetPersonaSentKept(title: string, k: Kind)
    ensures Kept(GetPersonaSent(title), k)
         == Keep(Progress(1, 2), k) + Keep(Request("GET", GetPersonaEndpoint(title), None, None), k)
  {
    KeptThree(Progress(1, 2), Info("Fetching persona information..."),
              Request("GET", GetPersonaEndpoint(title), None, None), k);
  }

  /** The requests and progress reports of each run, block by block. */
  lemma GetPersonaBlocks(title: string, valid: Reply<bool>, answer: Reply<Json>, k: Kind)
    requires k != RefreshKind
    ensures Kept(GetPersonaRun(title, valid, answer).events, k)
         == if valid != Returned(true) then Keep(Progress(0, 2), k)
            else Keep(Progress(0, 2), k) + Keep(Progress(1, 2), k)
                 + Keep(Request("GET", GetPersonaEndpoint(title), None, None), k)
                 + Kept(Settle(answer, 2, RETRIEVED_NOTE, RETRIEVE_ERROR), k)
  {
    var opening := GetPersonaOpening(title);
    GetPersonaOpeningKept(title, k);
    if valid != Returned(true) {
      KeptAppend(opening, Refusal(valid), k);
      RefusalQuiet(valid, k);
    } else {
      var sent := GetPersonaSent(title);
      GetPersonaSentKept(title, k);
      KeptAppend(opening + sent, Settle(answer, 2, RETRIEVED_NOTE, RETRIEVE_ERROR), k);
      KeptAppend(opening, sent, k);
    }
  }

  /** A GET of the title's endpoint is sent exactly when the token is
      accepted, and it is the only request. */
  lemma GetPersonaRequests(title: string, valid: Reply<bool>, answer: Reply<Json>)
    ensures Requests(GetPersonaRun(title, valid, answer).events)
         == if valid == Returned(true) then [Request("GET", GetPersonaEndpoint(title), None, None)] else []
  {
    GetPersonaBlocks(title, valid, answer, RequestKind);
    SettleReports(answer, 2, RETRIEVED_NOTE, RETRIEVE_ERROR);
  }

  /** The progress reports of each run. */
  lemma GetPersonaProgress(title: string, valid: Reply<bool>, answer: Reply<Json>)
    ensures Progresses(GetPersonaRun(title, valid, answer).events)
         == if valid != Returned(true) then [Progress(0, 2)]
            else if answer.Returned? then [Progress(0, 2), Progress(1, 2), Progress(2, 2)]
            else [Progress(0, 2), Progress(1, 2)]
  {
    GetPersonaBlocks(title, valid, answer, ProgressKind);
    SettleReports(answer, 2, RETRIEVED_NOTE, RETRIEVE_ERROR);
  }

  /** With a rejected token the caller gets the fixed authentication error,
      nothing is sent to the backend and progress stops at (0, 2). */
  lemma GetPersonaAuthGate(title: string, answer: Reply<Json>)
    ensures var run := GetPersonaRun(title, Returned(false), answer);
      run.result == ErrorDict(AUTH_FAILED_MESSAGE) &&
      Requests(run.events) == [] && Progresses(run.events) == [Progress(0, 2)]
  {
    GetPersonaRequests(title, Returned(false), answer);
    GetPersonaProgress(title, Returned(false), answer);
  }

  /** On success the backend's payload comes back unchanged, after exactly one
      GET of the title's endpoint, with progress (0, 2), (1, 2), (2, 2):
      strictly advancing and ending at (2, 2). */
  lemma GetPersonaSucceeds(title: string, payload: Json)
    ensures var run := GetPersonaRun(title, Returned(true), Returned(payload));
      run.result == payload &&
      Requests(run.events) == [Request("GET", GetPersonaEndpoint(title), None, None)] &&
      Progresses(run.events) == [Progress(0, 2), Progress(1, 2), Progress(2, 2)] &&
      Advancing(Progresses(run.events), 2) && Completes(Progresses(run.events), 2)
  {
    GetPersonaRequests(title, Returned(true), Returned(payload));
    GetPersonaProgress(title, Returned(true), Returned(payload));
    AdvancingThree(0, 1, 2, 2);
  }

  /** A `ValueError(m)` from the backend call becomes
      `{"error": "Error retrieving persona: " + m}` and the terminal (2, 2)
      report is never sent. Any other `Exception`, from the auth client or from
      the backend call, becomes `{"error": "An unexpected error occurred: " + str(e)}`. */
  lemma GetPersonaErrors(title: string, valid: Reply<bool>, answer: Reply<Json>)
    ensures valid == Returned(true) && answer.Raised? && answer.exc.ValueError? ==>
      GetPersonaRun(title, valid, answer).result == ErrorDict(RETRIEVE_ERROR + answer.exc.text) &&
      Progress(2, 2) !in Progresses(GetPersonaRun(title, valid, answer).events)
    ensures valid.Raised? || (valid == Returned(true) && answer.Raised? && answer.exc.OtherError?) ==>
      GetPersonaRun(title, valid, answer).result
      == ErrorDict(UNEXPECTED_PREFIX + (if valid.Raised? then valid.exc else answer.exc).text)
  {
    GetPersonaProgress(title, valid, answer);
  }

  // ------------------------------------------------------------ refresh_persona

  /** `course_id and course_id.strip()`. */
  predicate HasCourse(courseId: string) {
    courseId != [] && Strip(courseId) != []
  }

  /** The body `refresh_persona` sends. */
  function RefreshPersonaBody(title: string, newContent: string, courseId: string): map<string, string> {
    var data := map["title" := title, "new_content" := newContent];
    if HasCourse(courseId) then data["course_id" := courseId] else data
  }

  /** The body always has `title` and `new_content`; it has `course_id`
      exactly when `course_id` holds a non-whitespace character, and then as
      given, not stripped; it has no other key. */
  lemma RefreshPersonaBodyKeys(title: string, newContent: string, courseId: string)
    ensures var body := RefreshPersonaBody(title, newContent, courseId);
      body.Keys <= {"title", "new_content", "course_id"} &&
      "title" in body && body["title"] == title &&
      "new_content" in body && body["new_content"] == newContent &&
      ("course_id" in body <==> exists i | 0 <= i < |courseId| :: !IsSpace(courseId[i])) &&
      ("course_id" in body ==> body["course_id"] == courseId)
  {
  }

  /** The body as `refresh_persona` builds it: the two fixed keys first, then
      `course_id` added to the same dictionary when it is given. */
  method BuildRefreshBody(title: string, newContent: string, courseId: string) returns (data: map<string, string>)
    ensures data == RefreshPersonaBody(title, newContent, courseId)
  {
    data := map["title" := title, "new_content" := newContent];
    if HasCourse(courseId) {
      data := data["course_id" := courseId];
    }
  }

  /** Up to the token check: progress (0, 3), the check. */
  function RefreshPersonaOpening(): seq<Event> {
    [Progress(0, 3), Validate(None)]
  }

  /** After an accepted token: progress (1, 3) and (2, 3), the POST request. */
  function RefreshPersonaSent(body: map<string, string>): seq<Event> {
    [Progress(1, 3), Progress(2, 3), Request("POST", REFRESH_PERSONA_PATH, Some(body), Some(JSON_HEADERS))]
  }

  /** Everything `refresh_persona(title, new_content, course_id)` does. */
  function RefreshPersonaRun(title: string, newContent: string, courseId: string,
                             valid: Reply<bool>, answer: Reply<Json>): Run {
    if valid != Returned(true) then
      Run(RefreshPersonaOpening() + Refusal(valid), RefusalResult(valid))
    else
      Run(RefreshPersonaOpening() + RefreshPersonaSent(RefreshPersonaBody(title, newContent, courseId))
            + Settle(answer, 3, UPDATED_NOTE, UPDATE_ERROR),
          SettleResult(answer, UPDATE_ERROR))
  }

  method RefreshPersona(ctx: Trace, auth: AuthClient, api: ApiClient,
                        title: string, newContent: string, courseId: string,
                        valid: Reply<bool>, answer: Reply<Json>) returns (r: Json)
    modifies ctx, auth
    ensures old(auth.cached).Some? ==> auth.cached == old(auth.cached)
    ensures ctx.events == old(ctx.events) + RefreshPersonaRun(title, newContent, courseId, valid, answer).events
    ensures r == RefreshPersonaRun(title, newContent, courseId, valid, answer).result
  {
    ghost var before := ctx.events;
    ctx.ReportProgress(0, 3);
    var checked := auth.ValidateToken(ctx, None, valid);
    assert ctx.events == before + RefreshPersonaOpening();
    if checked.Raised? {
      ctx.NotifyError(UNEXPECTED_NOTE);
      return ErrorDict(UNEXPECTED_PREFIX + checked.exc.text);
    }
    if !checked.value {
      ctx.NotifyError(AUTH_FAILED_NOTE);
      return ErrorDict(AUTH_FAILED_MESSAGE);
    }
    ctx.ReportProgress(1, 3);
    var data := BuildRefreshBody(title, newContent, courseId);
    ctx.ReportProgress(2, 3);
    var response := api.Request(ctx, "POST", REFRESH_PERSONA_PATH, Some(data), Some(JSON_HEADERS), answer);
    assert ctx.events == before + (RefreshPersonaOpening() + RefreshPersonaSent(data));
    match response {
      case Returned(payload) =>
        ctx.ReportProgress(3, 3);
        ctx.NotifyInfo(UPDATED_NOTE);
        r := payload;
      case Raised(ValueError(m)) =>
        ctx.NotifyError(UPDATE_ERROR + m);
        r := ErrorDict(UPDATE_ERROR + m);
      case Raised(OtherError(m)) =>
        ctx.NotifyError(UNEXPECTED_NOTE);
        r := ErrorDict(UNEXPECTED_PREFIX + m);
    }
  }

  /** Every run ends with the backend's payload, unchanged, or an error
      dictionary. */
  lemma RefreshPersonaClosed(title: string, newContent: string, courseId: string,
                             valid: Reply<bool>, answer: Reply<Json>)
    ensures var run := RefreshPersonaRun(title, newContent, courseId, valid, answer);
      IsErrorDict(run.result) || (valid == Returned(true) && answer == Returned(run.result))
  {
    ResultsClosed(valid, answer, UPDATE_ERROR);
  }

  /** The requests and progress reports of each run, block by block. */
  lemma RefreshPersonaBlocks(title: string, newContent: string, courseId: string,
                             valid: Reply<bool>, answer: Reply<Json>, k: Kind)
    requires k != RefreshKind
    ensures Kept(RefreshPersonaRun(title, newContent, courseId, valid, answer).events, k)
         == if valid != Returned(true) then Keep(Progress(0, 3), k)
            else Keep(Progress(0, 3), k) + Keep(Progress(1, 3), k) + Keep(Progress(2, 3), k)
                 + Keep(Request("POST", REFRESH_PERSONA_PATH,
                                Some(RefreshPersonaBody(title, newContent, courseId)), Some(JSON_HEADERS)), k)
                 + Kept(Settle(answer, 3, UPDATED_NOTE, UPDATE_ERROR), k)
  {
    var opening := RefreshPersonaOpening();
    KeptTwo(Progress(0, 3), Validate(None), k);
    if valid != Returned(true) {
      KeptAppend(opening, Refusal(valid), k);
      RefusalQuiet(valid, k);
    } else {
      var body := RefreshPersonaBody(title, newContent, courseId);
      var sent := RefreshPersonaSent(body);
      KeptThree(Progress(1, 3), Progress(2, 3), Request("POST", REFRESH_PERSONA_PATH, Some(body), Some(JSON_HEADERS)), k);
      KeptAppend(opening + sent, Settle(answer, 3, UPDATED_NOTE, UPDATE_ERROR), k);
      KeptAppend(opening, sent, k);
    }
  }

  /** One POST of the body with the JSON content type is sent exactly when
      the token is accepted. */
  lemma RefreshPersonaRequests(title: string, newContent: string, courseId: string,
                               valid: Reply<bool>, answer: Reply<Json>)
    ensures Requests(RefreshPersonaRun(title, newContent, courseId, valid, answer).events)
         == if valid == Returned(true)
            then [Request("POST", REFRESH_PERSONA_PATH,
                          Some(RefreshPersonaBody(title, newContent, courseId)), Some(JSON_HEADERS))]
            else []
  {
    RefreshPersonaBlocks(title, newContent, courseId, valid, answer, RequestKind);
    SettleReports(answer, 3, UPDATED_NOTE, UPDATE_ERROR);
  }

  /** The progress reports of each run. */
  lemma RefreshPersonaProgress(title: string, newContent: string, courseId: string,
                               valid: Reply<bool>, answer: Reply<Json>)
    ensures Progresses(RefreshPersonaRun(title, newContent, courseId, valid, answer).events)
         == if valid != Returned(true) then [Progress(0, 3)]
            else if answer.Returned? then [Progress(0, 3), Progress(1, 3), Progress(2, 3), Progress(3, 3)]
            else [Progress(0, 3), Progress(1, 3), Progress(2, 3)]
  {
    RefreshPersonaBlocks(title, newContent, courseId, valid, answer, ProgressKind);
    SettleReports(answer, 3, UPDATED_NOTE, UPDATE_ERROR);
  }

  /** With a rejected token: the authentication error after the (0, 3) report
      only, and nothing sent to the backend. */
  lemma RefreshPersonaAuthGate(title: string, newContent: string, courseId: string, answer: Reply<Json>)
    ensures var run := RefreshPersonaRun(title, newContent, courseId, Returned(false), answer);
      run.result == ErrorDict(AUTH_FAILED_MESSAGE) &&
      Requests(run.events) == [] && Progresses(run.events) == [Progress(0, 3)]
  {
    RefreshPersonaRequests(title, newContent, courseId, Returned(false), answer);
    RefreshPersonaProgress(title, newContent, courseId, Returned(false), answer);
  }

  /** On success: the payload unchanged, one POST of the body with the JSON
      content type, and progress (0, 3), (1, 3), (2, 3), (3, 3), which
      advances strictly and ends at (3, 3). */
  lemma RefreshPersonaSucceeds(title: string, newContent: string, courseId: string, payload: Json)
    ensures var run := RefreshPersonaRun(title, newContent, courseId, Returned(true), Returned(payload));
      run.result == payload &&
      Requests(run.events) == [Request("POST", REFRESH_PERSONA_PATH,
                                       Some(RefreshPersonaBody(title, newContent, courseId)), Some(JSON_HEADERS))] &&
      Progresses(run.events) == [Progress(0, 3), Progress(1, 3), Progress(2, 3), Progress(3, 3)] &&
      Advancing(Progresses(run.events), 3) && Completes(Progresses(run.events), 3)
  {
    RefreshPersonaRequests(title, newContent, courseId, Returned(true), Returned(payload));
    RefreshPersonaProgress(title, newContent, courseId, Returned(true), Returned(payload));
    AdvancingFour(0, 1, 2, 3, 3);
  }

  /** A `ValueError(m)` from the backend call becomes
      `{"error": "Error updating persona: " + m}` and the terminal (3, 3)
      report is never sent; any other `Exception` goes to the catch-all. */
  lemma RefreshPersonaErrors(title: string, newContent: string, courseId: string,
                             valid: Reply<bool>, answer: Reply<Json>)
    ensures valid == Returned(true) && answer.Raised? && answer.exc.ValueError? ==>
      RefreshPersonaRun(title, newContent, courseId, valid, answer).result == ErrorDict(UPDATE_ERROR + answer.exc.text) &&
      Progress(3, 3) !in Progresses(RefreshPersonaRun(title, newContent, courseId, valid, answer).events)
    ensures valid.Raised? || (valid == Returned(true) && answer.Raised? && answer.exc.OtherError?) ==>
      RefreshPersonaRun(title, newContent, courseId, valid, answer).result
      == ErrorDict(UNEXPECTED_PREFIX + (if valid.Raised? then valid.exc else answer.exc).text)
  {
    RefreshPersonaProgress(title, newContent, courseId, valid, answer);
  }
}
