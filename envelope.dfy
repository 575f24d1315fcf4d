/** The vocabulary shared by every tool: the backend's JSON payloads, the
    outcomes of the collaborators (auth client, API client), and the trace of
    observable effects one tool call leaves behind, in the order they happen. */
module Envelope {

  datatype Option<T> = None | Some(value: T)

  /** An opaque JSON value as the backend returns it (numbers are integers here). */
  datatype Json =
    | Null
    | Bool(b: bool)
    | Num(n: int)
    | Str(s: string)
    | Arr(items: seq<Json>)
    | Obj(fields: map<string, Json>)

  /** A raised `Exception`, split the way the tools' handlers split them;
      `text` is what `str(e)` gives. A `BaseException` that is not an
      `Exception`, such as a cancellation, is outside this type. */
  datatype Exc = ValueError(text: string) | OtherError(text: string)

  /** What a collaborator did: returned a value or raised. */
  datatype Reply<T> = Returned(value: T) | Raised(exc: Exc)

  /** One observable effect. Info, Error and Progress are the notifications
      sent through the caller's context; Validate and Refresh are calls on the
      auth client (`Validate(None)` checks the cached token); Request is the
      one call on the API client. */
  datatype Event =
    | Info(message: string)
    | Error(message: string)
    | Progress(current: int, total: int)
    | Validate(token: Option<string>)
    | Refresh
    | Request(verb: string, endpoint: string,
              body: Option<map<string, string>>, headers: Option<map<string, string>>)

  /** Everything one tool call does: its trace and the dictionary it returns. */
  datatype Run = Run(events: seq<Event>, result: Json)

  const AUTH_FAILED_NOTE := "Authentication failed"
  const AUTH_FAILED_MESSAGE := "Authentication failed. Please check your credentials."
  const UNEXPECTED_NOTE := "An unexpected error occurred"
  const UNEXPECTED_PREFIX := "An unexpected error occurred: "
  const JSON_HEADERS: map<string, string> := map["Content-Type" := "application/json"]

  /** The `{"error": message}` dictionary a tool returns instead of raising. */
  function ErrorDict(message: string): Json {
    Obj(map["error" := Str(message)])
  }

  predicate IsErrorDict(d: Json) {
    d.Obj? && d.fields.Keys == {"error"} && d.fields["error"].Str?
  }

  /** The kinds of event a trace is filtered by. */
  datatype Kind = ProgressKind | RequestKind | RefreshKind

  predicate Is(e: Event, k: Kind) {
    match k
    case ProgressKind => e.Progress?
    case RequestKind => e.Request?
    case RefreshKind => e.Refresh?
  }

  /** The events of kind `k`, in order. */
  function Kept(events: seq<Event>, k: Kind): seq<Event> {
    if events == [] then []
    else (if Is(events[0], k) then [events[0]] else []) + Kept(events[1..], k)
  }

  lemma {:induction false} KeptAppend(a: seq<Event>, b: seq<Event>, k: Kind)
    ensures Kept(a + b, k) == Kept(a, k) + Kept(b, k)
  {
    if a == [] {
      assert a + b == b;
    } else {
      assert (a + b)[0] == a[0];
      assert (a + b)[1..] == a[1..] + b;
      KeptAppend(a[1..], b, k);
    }
  }

  /** One event, kept when it is of kind `k`. */
  function Keep(e: Event, k: Kind): seq<Event> {
    if Is(e, k) then [e] else []
  }

  lemma KeptOne(x: Event, k: Kind)
    ensures Kept([x], k) == Keep(x, k)
  {
    assert [x][1..] == [];
  }

  lemma KeptTwo(x: Event, y: Event, k: Kind)
    ensures Kept([x, y], k) == Keep(x, k) + Keep(y, k)
  {
    assert [x, y][1..] == [y];
    KeptOne(y, k);
  }

  lemma KeptThree(x: Event, y: Event, z: Event, k: Kind)
    ensures Kept([x, y, z], k) == Keep(x, k) + Keep(y, k) + Keep(z, k)
  {
    assert [x, y, z][1..] == [y, z];
    KeptTwo(y, z, k);
  }

  function Progresses(events: seq<Event>): seq<Event> {
    Kept(events, ProgressKind)
  }

  function Requests(events: seq<Event>): seq<Event> {
    Kept(events, RequestKind)
  }

  function CurrentOf(e: Event): int {
    if e.Progress? then e.current else -1
  }

  /** A progress sequence of one call: every report has the call's total, a
      current value in [0, total], and the current values strictly increase. */
  predicate Advancing(ps: seq<Event>, total: int) {
    (forall i | 0 <= i < |ps| :: ps[i].Progress? && ps[i].total == total && 0 <= ps[i].current <= total) &&
    (forall i, j | 0 <= i < j < |ps| :: CurrentOf(ps[i]) < CurrentOf(ps[j]))
  }

  lemma AdvancingThree(a: int, b: int, c: int, total: int)
    requires 0 <= a < b < c <= total
    ensures Advancing([Progress(a, total), Progress(b, total), Progress(c, total)], total)
  {
  }

  lemma AdvancingFour(a: int, b: int, c: int, d: int, total: int)
    requires 0 <= a < b < c < d <= total
    ensures Advancing([Progress(a, total), Progress(b, total), Progress(c, total), Progress(d, total)], total)
  {
  }

  /** The last progress report is the terminal one. */
  predicate Completes(ps: seq<Event>, total: int) {
    |ps| > 0 && ps[|ps| - 1] == Progress(total, total)
  }

  /** How every tool ends when the token check does not pass: an exception
      from the auth client goes to the outer catch-all handler; a rejected
      token gets the fixed authentication error. */
  function Refusal(valid: Reply<bool>): seq<Event> {
    if valid.Raised? then [Error(UNEXPECTED_NOTE)] else [Error(AUTH_FAILED_NOTE)]
  }

  function RefusalResult(valid: Reply<bool>): Json {
    if valid.Raised? then ErrorDict(UNEXPECTED_PREFIX + valid.exc.text) else ErrorDict(AUTH_FAILED_MESSAGE)
  }

  /** How every tool ends once the backend has answered: on success the
      terminal progress report and a success note; a `ValueError` is reported
      with the tool's own prefix; any other `Exception` goes to the outer
      catch-all handler. */
  function Settle(answer: Reply<Json>, total: int, successNote: string, errorPrefix: string): seq<Event> {
    match answer
    case Returned(_) => [Progress(total, total), Info(successNote)]
    case Raised(ValueError(m)) => [Error(errorPrefix + m)]
    case Raised(OtherError(_)) => [Error(UNEXPECTED_NOTE)]
  }

  function SettleResult(answer: Reply<Json>, errorPrefix: string): Json {
    match answer
    case Returned(payload) => payload
    case Raised(ValueError(m)) => ErrorDict(errorPrefix + m)
    case Raised(OtherError(m)) => ErrorDict(UNEXPECTED_PREFIX + m)
  }

  /** A refusal sends nothing to the backend and reports no progress. */
  lemma RefusalQuiet(valid: Reply<bool>, k: Kind)
    requires k != RefreshKind
    ensures Kept(Refusal(valid), k) == []
  {
    KeptOne(Refusal(valid)[0], k);
  }

  /** After the backend's answer no further request is sent, and the only
      progress report is the terminal one, on success. */
  lemma SettleReports(answer: Reply<Json>, total: int, successNote: string, errorPrefix: string)
    ensures Requests(Settle(answer, total, successNote, errorPrefix)) == []
    ensures Progresses(Settle(answer, total, successNote, errorPrefix))
         == if answer.Returned? then [Progress(total, total)] else []
  {
    match answer
    case Returned(_) =>
      KeptTwo(Progress(total, total), Info(successNote), RequestKind);
      KeptTwo(Progress(total, total), Info(successNote), ProgressKind);
    case Raised(e) =>
      var note := Settle(answer, total, successNote, errorPrefix)[0];
      KeptOne(note, RequestKind);
      KeptOne(note, ProgressKind);
  }

  /** The result is either the backend's payload, unchanged, or an error
      dictionary: no failure escapes. */
  lemma ResultsClosed(valid: Reply<bool>, answer: Reply<Json>, errorPrefix: string)
    ensures IsErrorDict(RefusalResult(valid))
    ensures IsErrorDict(SettleResult(answer, errorPrefix)) || answer == Returned(SettleResult(answer, errorPrefix))
  {
  }

  /** The caller's context: the notifications it receives, plus the calls the
      collaborators see, all in one ordered log. */
  class Trace {
    var events: seq<Event>

    constructor ()
      ensures events == []
    {
      events := [];
    }

    method NotifyInfo(message: string)
      modifies this
      ensures events == old(events) + [Info(message)]
    {
      events := events + [Info(message)];
    }

    method NotifyError(message: string)
      modifies this
      ensures events == old(events) + [Error(message)]
    {
      events := events + [Error(message)];
    }

    method ReportProgress(current: int, total: int)
      modifies this
      ensures events == old(events) + [Progress(current, total)]
    {
      events := events + [Progress(current, total)];
    }
  }

  /** The auth client, seen from outside: it holds the cached token; whether a
      token is accepted and what a refresh yields are answers given to it. */
  class AuthClient {
    var cached: Option<string>

    constructor (cached: Option<string>)
      ensures this.cached == cached
    {
      this.cached := cached;
    }

    /** `validate_token(token)`; `None` stands for "the cached token". When
        no token is cached and none is passed, the client may obtain one of
        its own, so the cached token is promised unchanged only otherwise. */
    method ValidateToken(log: Trace, token: Option<string>, answer: Reply<bool>) returns (r: Reply<bool>)
      modifies this, log
      ensures log.events == old(log.events) + [Validate(token)]
      ensures r == answer
      ensures token.Some? || old(cached).Some? ==> cached == old(cached)
    {
      log.events := log.events + [Validate(token)];
      r := answer;
    }

    /** `refresh_token()`: a new token replaces the cached one; a failed
        refresh leaves the cached token as it was. */
    method RefreshToken(log: Trace, answer: Reply<string>) returns (r: Reply<string>)
      modifies this, log
      ensures log.events == old(log.events) + [Refresh]
      ensures r == answer
      ensures cached == if answer.Returned? then Some(answer.value) else old(cached)
    {
      log.events := log.events + [Refresh];
      if answer.Returned? {
        cached := Some(answer.value);
      }
      r := answer;
    }
  }

  /** The API client: one request, whose outcome is given to it. */
  class ApiClient {
    method Request(log: Trace, verb: string, endpoint: string,
                   body: Option<map<string, string>>, headers: Option<map<string, string>>,
                   answer: Reply<Json>) returns (r: Reply<Json>)
      modifies log
      ensures log.events == old(log.events) + [Event.Request(verb, endpoint, body, headers)]
      ensures r == answer
    {
      log.events := log.events + [Event.Request(verb, endpoint, body, headers)];
      r := answer;
    }
  }
}
