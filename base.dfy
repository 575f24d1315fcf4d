/** The `create_base` tool: it creates a base (a course, in the backend's
    terms) from a name and a description. The token is checked before the
    inputs, and the inputs are checked before anything is sent. */
module Base {
  import opened Envelope

  const CREATE_COURSE_PATH := "/mcp/create_course"
  const CREATED_NOTE := "Base created successfully"
  const CREATE_ERROR := "Error creating base: "
  const MISSING_PARAMETERS :=
    "Missing required parameters: user_id, base_name, and base_description must be provided."

  /** `not base_name or not base_description`: plain emptiness, no trimming. */
  predicate MissingInput(baseName: string, baseDescription: string) {
    baseName == [] || baseDescription == []
  }

  /** The body `create_base` sends: the tool's field names renamed to the
      backend's. */
  function CreateBaseBody(baseName: string, baseDescription: string): map<string, string> {
    map["course_name" := baseName, "course_description" := baseDescription]
  }

  /** The body has exactly the two keys, each holding its input unchanged. */
  lemma CreateBaseBodyKeys(baseName: string, baseDescription: string)
    ensures var body := CreateBaseBody(baseName, baseDescription);
      body.Keys == {"course_name", "course_description"} &&
      body["course_name"] == baseName && body["course_description"] == baseDescription
  {
  }

  /** Up to the token check: the start note, progress (0, 3), the check. */
  function CreateBaseOpening(baseName: string): seq<Event> {
    [Info("Creating base '" + baseName + "'..."), Progress(0, 3), Validate(None)]
  }

  /** After the inputs pass: progress (1, 3) and the POST request. */
  function CreateBaseSent(baseName: string, baseDescription: string): seq<Event> {
    [Progress(1, 3),
     Request("POST", CREATE_COURSE_PATH, Some(CreateBaseBody(baseName, baseDescription)), Some(JSON_HEADERS))]
  }

  /** Everything `create_base(base_name, base_description)` does. */
  function CreateBaseRun(baseName: string, baseDescription: string,
                         valid: Reply<bool>, answer: Reply<Json>): Run {
    if valid != Returned(true) then
      Run(CreateBaseOpening(baseName) + Refusal(valid), RefusalResult(valid))
    else if MissingInput(baseName, baseDescription) then
      Run(CreateBaseOpening(baseName) + [Error(MISSING_PARAMETERS)], ErrorDict(MISSING_PARAMETERS))
    else
      Run(CreateBaseOpening(baseName) + CreateBaseSent(baseName, baseDescription)
            + Settle(answer, 3, CREATED_NOTE, CREATE_ERROR),
          SettleResult(answer, CREATE_ERROR))
  }

  method CreateBase(ctx: Trace, auth: AuthClient, api: ApiClient,
                    baseName: string, baseDescription: string,
                    valid: Reply<bool>, answer: Reply<Json>) returns (r: Json)
    modifies ctx, auth
    ensures old(auth.cached).Some? ==> auth.cached == old(auth.cached)
    ensures ctx.events == old(ctx.events) + CreateBaseRun(baseName, baseDescription, valid, answer).events
    ensures r == CreateBaseRun(baseName, baseDescription, valid, answer).result
  {
    ghost var before := ctx.events;
    ctx.NotifyInfo("Creating base '" + baseName + "'...");
    ctx.ReportProgress(0, 3);
    var checked := auth.ValidateToken(ctx, None, valid);
    assert ctx.events == before + CreateBaseOpening(baseName);
    if checked.Raised? {
      ctx.NotifyError(UNEXPECTED_NOTE);
      return ErrorDict(UNEXPECTED_PREFIX + checked.exc.text);
    }
    if !checked.value {
      ctx.NotifyError(AUTH_FAILED_NOTE);
      return ErrorDict(AUTH_FAILED_MESSAGE);
    }
    if baseName == [] || baseDescription == [] {
      ctx.NotifyError(MISSING_PARAMETERS);
      return ErrorDict(MISSING_PARAMETERS);
    }
    ctx.ReportProgress(1, 3);
    var data := CreateBaseBody(baseName, baseDescription);
    var response := api.Request(ctx, "POST", CREATE_COURSE_PATH, Some(data), Some(JSON_HEADERS), answer);
    assert ctx.events == before + (CreateBaseOpening(baseName) + CreateBaseSent(baseName, baseDescription));
    match response {
      case Returned(payload) =>
        ctx.ReportProgress(3, 3);
        ctx.NotifyInfo(CREATED_NOTE);
        r := payload;
      case Raised(ValueError(m)) =>
        ctx.NotifyError(CREATE_ERROR + m);
        r := ErrorDict(CREATE_ERROR + m);
      case Raised(OtherError(m)) =>
        ctx.NotifyError(UNEXPECTED_NOTE);
        r := ErrorDict(UNEXPECTED_PREFIX + m);
    }
  }

  /** Every run ends with the backend's payload, unchanged, or an error
      dictionary. */
  lemma CreateBaseClosed(baseName: string, baseDescription: string, valid: Reply<bool>, answer: Reply<Json>)
    ensures var run := CreateBaseRun(baseName, baseDescription, valid, answer);
      IsErrorDict(run.result) ||
      (valid == Returned(true) && !MissingInput(baseName, baseDescription) && answer == Returned(run.result))
  {
    ResultsClosed(valid, answer, CREATE_ERROR);
  }

  lemma CreateBaseOpeningKept(baseName: string, k: Kind)
    ensures Kept(CreateBaseOpening(baseName), k) == Keep(Progress(0, 3), k)
  {
    KeptThree(Info("Creating base '" + baseName + "'..."), Progress(0, 3), Validate(None), k);
  }

  lemma CreateBaseSentKept(baseName: string, baseDescription: string, k: Kind)
    ensures Kept(CreateBaseSent(baseName, baseDescription), k)
         == Keep(Progress(1, 3), k)
            + Keep(Request("POST", CREATE_COURSE_PATH, Some(CreateBaseBody(baseName, baseDescription)), Some(JSON_HEADERS)), k)
  {
    KeptTwo(Progress(1, 3),
            Request("POST", CREATE_COURSE_PATH, Some(CreateBaseBody(baseName, baseDescription)), Some(JSON_HEADERS)), k);
  }

  /** A run stopped by the token check or by the input check reports only
      (0, 3) and sends nothing. */
  lemma CreateBaseStoppedKept(baseName: string, baseDescription: string,
                              valid: Reply<bool>, answer: Reply<Json>, k: Kind)
    requires k != RefreshKind
    requires valid != Returned(true) || MissingInput(baseName, baseDescription)
    ensures Kept(CreateBaseRun(baseName, baseDescription, valid, answer).events, k) == Keep(Progress(0, 3), k)
  {
    var opening := CreateBaseOpening(baseName);
    CreateBaseOpeningKept(baseName, k);
    if valid != Returned(true) {
      KeptAppend(opening, Refusal(valid), k);
      RefusalQuiet(valid, k);
    } else {
      KeptAppend(opening, [Error(MISSING_PARAMETERS)], k);
      KeptOne(Error(MISSING_PARAMETERS), k);
    }
  }

  /** A run that passed both checks reports (0, 3) and (1, 3), sends the
      POST and settles. */
  lemma CreateBaseSentRunKept(baseName: string, baseDescription: string, answer: Reply<Json>, k: Kind)
    requires !MissingInput(baseName, baseDescription)
    ensures Kept(CreateBaseRun(baseName, baseDescription, Returned(true), answer).events, k)
         == Keep(Progress(0, 3), k) + Keep(Progress(1, 3), k)
            + Keep(Request("POST", CREATE_COURSE_PATH,
                           Some(CreateBaseBody(baseName, baseDescription)), Some(JSON_HEADERS)), k)
            + Kept(Settle(answer, 3, CREATED_NOTE, CREATE_ERROR), k)
  {
    var opening := CreateBaseOpening(baseName);
    var sent := CreateBaseSent(baseName, baseDescription);
    CreateBaseOpeningKept(baseName, k);
    CreateBaseSentKept(baseName, baseDescription, k);
    KeptAppend(opening + sent, Settle(answer, 3, CREATED_NOTE, CREATE_ERROR), k);
    KeptAppend(opening, sent, k);
  }

  /** The events of each run, block by block. */
  lemma CreateBaseBlocks(baseName: string, baseDescription: string, valid: Reply<bool>, answer: Reply<Json>, k: Kind)
    requires k != RefreshKind
    ensures Kept(CreateBaseRun(baseName, baseDescription, valid, answer).events, k)
         == if valid != Returned(true) || MissingInput(baseName, baseDescription)
            then Keep(Progress(0, 3), k)
            else Keep(Progress(0, 3), k) + Keep(Progress(1, 3), k)
                 + Keep(Request("POST", CREATE_COURSE_PATH,
                                Some(CreateBaseBody(baseName, baseDescription)), Some(JSON_HEADERS)), k)
                 + Kept(Settle(answer, 3, CREATED_NOTE, CREATE_ERROR), k)
  {
    if valid != Returned(true) || MissingInput(baseName, baseDescription) {
      CreateBaseStoppedKept(baseName, baseDescription, valid, answer, k);
    } else {
      CreateBaseSentRunKept(baseName, baseDescription, answer, k);
    }
  }

  /** A request is sent exactly when the token is accepted and both inputs
      are non-empty, and then it is the one POST of the two-key body. */
  lemma CreateBaseRequests(baseName: string, baseDescription: string, valid: Reply<bool>, answer: Reply<Json>)
    ensures Requests(CreateBaseRun(baseName, baseDescription, valid, answer).events)
         == if valid == Returned(true) && !MissingInput(baseName, baseDescription)
            then [Request("POST", CREATE_COURSE_PATH,
                          Some(CreateBaseBody(baseName, baseDescription)), Some(JSON_HEADERS))]
            else []
  {
    CreateBaseBlocks(baseName, baseDescription, valid, answer, RequestKind);
    SettleReports(answer, 3, CREATED_NOTE, CREATE_ERROR);
  }

  /** The progress reports of each run. */
  lemma CreateBaseProgress(baseName: string, baseDescription: string, valid: Reply<bool>, answer: Reply<Json>)
    ensures Progresses(CreateBaseRun(baseName, baseDescription, valid, answer).events)
         == if valid != Returned(true) || MissingInput(baseName, baseDescription) then [Progress(0, 3)]
            else if answer.Returned? then [Progress(0, 3), Progress(1, 3), Progress(3, 3)]
            else [Progress(0, 3), Progress(1, 3)]
  {
    CreateBaseBlocks(baseName, baseDescription, valid, answer, ProgressKind);
    SettleReports(answer, 3, CREATED_NOTE, CREATE_ERROR);
  }

  /** The token is checked before the inputs: with a rejected token the
      result is the authentication error whatever the inputs, even empty
      ones, and nothing is sent. */
  lemma CreateBaseAuthGate(baseName: string, baseDescription: string, answer: Reply<Json>)
    ensures var run := CreateBaseRun(baseName, baseDescription, Returned(false), answer);
      run.result == ErrorDict(AUTH_FAILED_MESSAGE) &&
      Requests(run.events) == [] && Progresses(run.events) == [Progress(0, 3)]
  {
    CreateBaseRequests(baseName, baseDescription, Returned(false), answer);
    CreateBaseProgress(baseName, baseDescription, Returned(false), answer);
  }

  /** With an accepted token and an empty name or description, the result is
      the missing-parameters error and nothing is sent. The check is plain
      emptiness: a request goes out exactly when both are non-empty, so a
      name or description made only of spaces is sent as it is. */
  lemma CreateBaseMissing(baseName: string, baseDescription: string, answer: Reply<Json>)
    ensures var run := CreateBaseRun(baseName, baseDescription, Returned(true), answer);
      (baseName == [] || baseDescription == [] ==>
         run.result == ErrorDict(MISSING_PARAMETERS) && Progresses(run.events) == [Progress(0, 3)]) &&
      (Requests(run.events) == [] <==> baseName == [] || baseDescription == [])
  {
    CreateBaseRequests(baseName, baseDescription, Returned(true), answer);
    CreateBaseProgress(baseName, baseDescription, Returned(true), answer);
  }

  /** On success: the payload unchanged, one POST of the two-key body with
      the JSON content type, and progress (0, 3), (1, 3), (3, 3), which skips
      2 but still advances strictly and ends at (3, 3). */
  lemma CreateBaseSucceeds(baseName: string, baseDescription: string, payload: Json)
    requires !MissingInput(baseName, baseDescription)
    ensures var run := CreateBaseRun(baseName, baseDescription, Returned(true), Returned(payload));
      run.result == payload &&
      Requests(run.events) == [Request("POST", CREATE_COURSE_PATH,
                                       Some(CreateBaseBody(baseName, baseDescription)), Some(JSON_HEADERS))] &&
      Progresses(run.events) == [Progress(0, 3), Progress(1, 3), Progress(3, 3)] &&
      Advancing(Progresses(run.events), 3) && Completes(Progresses(run.events), 3)
  {
    CreateBaseRequests(baseName, baseDescription, Returned(true), Returned(payload));
    CreateBaseProgress(baseName, baseDescription, Returned(true), Returned(payload));
    AdvancingThree(0, 1, 3, 3);
  }

  /** A `ValueError(m)` from the backend call becomes
      `{"error": "Error creating base: " + m}` without the (3, 3) report; any
      other `Exception` goes to the catch-all. */
  lemma CreateBaseErrors(baseName: string, baseDescription: string, valid: Reply<bool>, answer: Reply<Json>)
    ensures valid == Returned(true) && !MissingInput(baseName, baseDescription) &&
            answer.Raised? && answer.exc.ValueError? ==>
      CreateBaseRun(baseName, baseDescription, valid, answer).result == ErrorDict(CREATE_ERROR + answer.exc.text) &&
      Progress(3, 3) !in Progresses(CreateBaseRun(baseName, baseDescription, valid, answer).events)
    ensures valid.Raised? ||
            (valid == Returned(true) && !MissingInput(baseName, baseDescription) &&
             answer.Raised? && answer.exc.OtherError?) ==>
      CreateBaseRun(baseName, baseDescription, valid, answer).result
      == ErrorDict(UNEXPECTED_PREFIX + (if valid.Raised? then valid.exc else answer.exc).text)
  {
    CreateBaseProgress(baseName, baseDescription, valid, answer);
  }
}
