/** The home page's generate form: the `canGenerate` guard of the Generate
    button and `handleGenerate`, which validates the input, posts it to the
    backend and, on success, stores the result and moves to the result page.

    The fetch (and the `res.json()` that follows it) is an input outcome.
    Everything the handler does — React state updates, the request, the
    localStorage write, the navigation — is recorded as an effect, in order,
    and the form's state is what replaying those effects leaves. */
module Generate {
  import opened Text
  import opened Pack

  /** The backend's `min_length` for a job description, which the client
      also enforces on the trimmed text. */
  const MinJobDescription: nat := 30

  const MissingUrlMessage: string := "Backend URL missing. Set NEXT_PUBLIC_BACKEND_URL in .env.local / Vercel env."
  const InvalidJobDescriptionMessage: string := "Please paste a valid Job Description (min 30 characters)."
  const GenerationFailedMessage: string := "Generation failed. Check backend logs / OpenRouter key."
  const AnalyzingStatus: string := "Analyzing job requirements…"
  const MappingStatus: string := "Mapping skills to interview expectations…"
  const GeneratingStatus: string := "Generating prep pack…"
  const ResultKey: string := "preppilot_result"
  const ResultRoute: string := "/result"
  const GeneratePath: string := "/generate"

  datatype Level = Intern | Fresher | Experienced

  /** How the request ends: no response at all (the fetch throws), or a
      response with its `ok` flag and, when its body parses as JSON, the
      body as `JSON.stringify` writes it back. */
  datatype Outcome = Unreachable | Responded(ok: bool, json: Option<string>)

  /** The request succeeded and produced a result to store. */
  predicate Succeeds(outcome: Outcome) {
    outcome.Responded? && outcome.ok && outcome.json.Some?
  }

  datatype Effect =
    | SetError(message: string)
    | SetLoading(on: bool)
    | SetStatus(text: string)
    | Post(url: string, jobDescription: string, resumeText: string, level: Level)
    | Store(key: string, value: string)
    | Navigate(route: string)

  /** What the handler can change: the three pieces of React state, the
      browser's localStorage and the route the router was last sent to. */
  datatype FormState = FormState(
    error: string,
    loading: bool,
    statusText: string,
    storage: map<string, string>,
    route: Option<string>)

  function Apply(s: FormState, e: Effect): FormState {
    match e
    case SetError(message) => s.(error := message)
    case SetLoading(on) => s.(loading := on)
    case SetStatus(text) => s.(statusText := text)
    case Post(_, _, _, _) => s
    case Store(key, value) => s.(storage := s.storage[key := value])
    case Navigate(route) => s.(route := Some(route))
  }

  /** The state after a run of effects. */
  function Replay(s: FormState, effects: seq<Effect>): FormState
    decreases |effects|
  {
    if effects == [] then s else Apply(Replay(s, effects[..|effects| - 1]), effects[|effects| - 1])
  }

  /** `!backendUrl` is false: the variable is set and not empty. */
  predicate HasUrl(backendUrl: Option<string>) {
    backendUrl.Some? && backendUrl.value != []
  }

  /** `jobDescription.trim().length >= 30 && !loading`, the length being
      JavaScript's (UTF-16 code units). */
  predicate CanGenerate(jobDescription: string, loading: bool) {
    Utf16Length(Trim(jobDescription)) >= MinJobDescription && !loading
  }

  /** The effects from the response on: the generic error for a failed
      request, a non-ok response or an unparsable body; otherwise the last
      status, the stored result and the navigation. */
  function AttemptTrace(outcome: Outcome): seq<Effect> {
    match outcome
    case Unreachable => [SetError(GenerationFailedMessage)]
    case Responded(ok, json) =>
      if !ok then [SetError(GenerationFailedMessage)]
      else
        [SetStatus(GeneratingStatus)]
        + match json
          case None => [SetError(GenerationFailedMessage)]
          case Some(value) => [Store(ResultKey, value), Navigate(ResultRoute)]
  }

  /** The start of the `try` block: loading on, two status texts, the POST. */
  function Opening(url: string, jobDescription: string, resumeText: string, level: Level): seq<Effect> {
    [SetLoading(true), SetStatus(AnalyzingStatus), SetStatus(MappingStatus),
     Post(url + GeneratePath, jobDescription, resumeText, level)]
  }

  /** The `finally` block. */
  const Closing: seq<Effect> := [SetLoading(false), SetStatus([])]

  /** Everything one `handleGenerate` call does, in order. */
  function GenerateTrace(backendUrl: Option<string>, jobDescription: string, resumeText: string,
                         level: Level, outcome: Outcome): seq<Effect>
  {
    [SetError([])]
    + if !HasUrl(backendUrl) then [SetError(MissingUrlMessage)]
      else if Utf16Length(Trim(jobDescription)) < MinJobDescription then [SetError(InvalidJobDescriptionMessage)]
      else Opening(backendUrl.value, jobDescription, resumeText, level) + AttemptTrace(outcome) + Closing
  }

  // ---------------------------------------------------------------------
  // Replaying traces

  lemma {:induction false} ReplayConcat(s: FormState, a: seq<Effect>, b: seq<Effect>)
    ensures Replay(s, a + b) == Replay(Replay(s, a), b)
    decreases |b|
  {
    if b == [] {
      assert a + b == a;
    } else {
      var b0 := b[..|b| - 1];
      assert (a + b)[..|a + b| - 1] == a + b0;
      ReplayConcat(s, a, b0);
    }
  }

  lemma ReplayOne(s: FormState, e: Effect)
    ensures Replay(s, [e]) == Apply(s, e)
  {
    assert [e][..0] == [];
  }

  lemma ReplayTwo(s: FormState, e: Effect, f: Effect)
    ensures Replay(s, [e, f]) == Apply(Apply(s, e), f)
  {
    assert [e, f] == [e] + [f];
    ReplayConcat(s, [e], [f]);
    ReplayOne(s, e);
    ReplayOne(Apply(s, e), f);
  }

  /** The try block's opening effects leave the state with loading on and
      the second status shown. */
  lemma ReplayOpening(s: FormState, post: Effect)
    requires post.Post?
    ensures Replay(s, [SetLoading(true), SetStatus(AnalyzingStatus), SetStatus(MappingStatus), post])
         == s.(loading := true, statusText := MappingStatus)
  {
    var opening := [SetLoading(true), SetStatus(AnalyzingStatus), SetStatus(MappingStatus), post];
    assert opening == [SetLoading(true), SetStatus(AnalyzingStatus)] + [SetStatus(MappingStatus), post];
    ReplayConcat(s, [SetLoading(true), SetStatus(AnalyzingStatus)], [SetStatus(MappingStatus), post]);
    ReplayTwo(s, SetLoading(true), SetStatus(AnalyzingStatus));
    ReplayTwo(s.(loading := true, statusText := AnalyzingStatus), SetStatus(MappingStatus), post);
  }

  /** What the response leaves: the generic error and nothing stored, or the
      result stored under its key and the result page opened. */
  lemma ReplayAttempt(s: FormState, outcome: Outcome)
    ensures var r := Replay(s, AttemptTrace(outcome));
      && r.loading == s.loading
      && (Succeeds(outcome) ==>
            && r.error == s.error
            && r.storage == s.storage[ResultKey := outcome.json.value]
            && r.route == Some(ResultRoute))
      && (!Succeeds(outcome) ==>
            && r.error == GenerationFailedMessage
            && r.storage == s.storage
            && r.route == s.route)
  {
    match outcome
    case Unreachable =>
      ReplayOne(s, SetError(GenerationFailedMessage));
    case Responded(ok, json) =>
      if !ok {
        ReplayOne(s, SetError(GenerationFailedMessage));
      } else {
        var shown := s.(statusText := GeneratingStatus);
        ReplayOne(s, SetStatus(GeneratingStatus));
        match json
        case None =>
          ReplayConcat(s, [SetStatus(GeneratingStatus)], [SetError(GenerationFailedMessage)]);
          ReplayOne(shown, SetError(GenerationFailedMessage));
        case Some(value) =>
          ReplayConcat(s, [SetStatus(GeneratingStatus)], [Store(ResultKey, value), Navigate(ResultRoute)]);
          ReplayTwo(shown, Store(ResultKey, value), Navigate(ResultRoute));
      }
  }

  // ---------------------------------------------------------------------
  // What handleGenerate promises

  /** The error is cleared before anything else happens, on every path. */
  lemma ClearsErrorFirst(backendUrl: Option<string>, jobDescription: string, resumeText: string,
                         level: Level, outcome: Outcome)
    ensures var t := GenerateTrace(backendUrl, jobDescription, resumeText, level, outcome);
      |t| >= 2 && t[0] == SetError([])
  {
  }

  /** Without a backend URL the handler only shows the missing-URL error:
      the length is not checked, loading is not set, nothing is requested. */
  lemma MissingUrlStops(s: FormState, backendUrl: Option<string>, jobDescription: string,
                        resumeText: string, level: Level, outcome: Outcome)
    requires !HasUrl(backendUrl)
    ensures var t := GenerateTrace(backendUrl, jobDescription, resumeText, level, outcome);
      && t == [SetError([]), SetError(MissingUrlMessage)]
      && Replay(s, t) == s.(error := MissingUrlMessage)
  {
    ReplayTwo(s, SetError([]), SetError(MissingUrlMessage));
  }

  /** With a URL but a trimmed job description under 30 characters the
      handler only shows the validation error; loading and the status text
      are left as they were and nothing is requested. */
  lemma ShortJobDescriptionStops(s: FormState, backendUrl: Option<string>, jobDescription: string,
                                 resumeText: string, level: Level, outcome: Outcome)
    requires HasUrl(backendUrl) && Utf16Length(Trim(jobDescription)) < MinJobDescription
    ensures var t := GenerateTrace(backendUrl, jobDescription, resumeText, level, outcome);
      && t == [SetError([]), SetError(InvalidJobDescriptionMessage)]
      && Replay(s, t) == s.(error := InvalidJobDescriptionMessage)
  {
    ReplayTwo(s, SetError([]), SetError(InvalidJobDescriptionMessage));
  }

  /** A request is sent exactly when the URL is set and the Generate button
      would be enabled with loading off; it goes to `${backendUrl}/generate`
      and carries the form's fields unchanged. */
  lemma RequestIffCanGenerate(backendUrl: Option<string>, jobDescription: string, resumeText: string,
                              level: Level, outcome: Outcome)
    ensures var t := GenerateTrace(backendUrl, jobDescription, resumeText, level, outcome);
      && ((exists k :: 0 <= k < |t| && t[k].Post?) <==> HasUrl(backendUrl) && CanGenerate(jobDescription, false))
      && (forall k :: 0 <= k < |t| && t[k].Post? ==>
            t[k] == Post(backendUrl.value + GeneratePath, jobDescription, resumeText, level))
  {
    var t := GenerateTrace(backendUrl, jobDescription, resumeText, level, outcome);
    if HasUrl(backendUrl) && CanGenerate(jobDescription, false) {
      assert t[4].Post?;
    }
  }

  /** Once the request is under way, the handler ends with loading off and
      the status text empty. A failed request, a non-ok response or an
      unparsable body shows the generic error and stores nothing and goes
      nowhere; a successful one leaves the error cleared, stores the result
      under "preppilot_result" (replacing any earlier one) and opens
      "/result". */
  lemma AttemptOutcome(s: FormState, backendUrl: Option<string>, jobDescription: string,
                       resumeText: string, level: Level, outcome: Outcome)
    requires HasUrl(backendUrl) && Utf16Length(Trim(jobDescription)) >= MinJobDescription
    ensures var r := Replay(s, GenerateTrace(backendUrl, jobDescription, resumeText, level, outcome));
      && !r.loading
      && r.statusText == []
      && (Succeeds(outcome) ==>
            r == s.(error := [], loading := false, statusText := [],
                    storage := s.storage[ResultKey := outcome.json.value], route := Some(ResultRoute)))
      && (!Succeeds(outcome) ==>
            r == s.(error := GenerationFailedMessage, loading := false, statusText := []))
  {
    var post := Post(backendUrl.value + GeneratePath, jobDescription, resumeText, level);
    var opening := [SetLoading(true), SetStatus(AnalyzingStatus), SetStatus(MappingStatus), post];
    var attempt := AttemptTrace(outcome);
    var closing := [SetLoading(false), SetStatus([])];
    var t := GenerateTrace(backendUrl, jobDescription, resumeText, level, outcome);
    assert t == [SetError([])] + opening + attempt + closing;
    var cleared := s.(error := []);
    ReplayOne(s, SetError([]));
    ReplayConcat(s, [SetError([])], opening);
    ReplayOpening(cleared, post);
    var started := cleared.(loading := true, statusText := MappingStatus);
    ReplayConcat(s, [SetError([])] + opening, attempt);
    ReplayAttempt(started, outcome);
    ReplayConcat(s, [SetError([])] + opening + attempt, closing);
    ReplayTwo(Replay(started, attempt), SetLoading(false), SetStatus([]));
  }

  /** On success the result is written before the navigation to the result
      page, which reads it back. */
  lemma StoreBeforeNavigate(backendUrl: Option<string>, jobDescription: string, resumeText: string,
                            level: Level, outcome: Outcome)
    requires HasUrl(backendUrl) && Utf16Length(Trim(jobDescription)) >= MinJobDescription
    requires Succeeds(outcome)
    ensures var t := GenerateTrace(backendUrl, jobDescription, resumeText, level, outcome);
      exists i, j :: 0 <= i < j < |t| && t[i] == Store(ResultKey, outcome.json.value) && t[j] == Navigate(ResultRoute)
  {
    var t := GenerateTrace(backendUrl, jobDescription, resumeText, level, outcome);
    assert t[6] == Store(ResultKey, outcome.json.value);
    assert t[7] == Navigate(ResultRoute);
  }

  // ---------------------------------------------------------------------
  // The client guard against the backend's `min_length`

  /** JavaScript counts UTF-16 code units, the backend counts code points.
      A job description the button accepts is at least 15 code points long,
      and at least 30 — what the backend demands — when its trimmed text
      lies in the Basic Multilingual Plane: trimming never lengthens. */
  lemma CanGenerateMeetsBackend(jobDescription: string, loading: bool)
    requires CanGenerate(jobDescription, loading)
    ensures |jobDescription| >= MinJobDescription / 2
    ensures InBmp(Trim(jobDescription)) ==> |jobDescription| >= MinJobDescription
  {
    Utf16LengthBounds(Trim(jobDescription));
    TrimShape(jobDescription);
  }

  /** Fifteen U+1F600 characters: 30 UTF-16 code units, which the button
      accepts, but 15 code points, which the backend refuses. */
  lemma AstralGuardGap()
    ensures var jd := seq(15, _ => '\U{1F600}');
      CanGenerate(jd, false) && |jd| < MinJobDescription
  {
    var jd := seq(15, _ => '\U{1F600}');
    assert TrimStart(jd) == jd;
    assert TrimEnd(jd) == jd;
    Utf16AllAstral(jd);
  }

  /** The guard the backend's `min_length` calls for: the trimmed text
      counted in code points, as the backend counts them. */
  predicate CanGenerateByCodePoints(jobDescription: string, loading: bool) {
    |Trim(jobDescription)| >= MinJobDescription && !loading
  }

  /** The code-point guard lets through only descriptions the backend
      accepts, and on text in the Basic Multilingual Plane it accepts
      exactly what the button accepts. */
  lemma CodePointGuardMeetsBackend(jobDescription: string, loading: bool)
    ensures CanGenerateByCodePoints(jobDescription, loading) ==> |jobDescription| >= MinJobDescription
    ensures InBmp(Trim(jobDescription)) ==>
      (CanGenerateByCodePoints(jobDescription, loading) <==> CanGenerate(jobDescription, loading))
  {
    Utf16LengthBounds(Trim(jobDescription));
    TrimShape(jobDescription);
  }

  /** The astral example that slips through the button is refused by the
      code-point guard. */
  lemma CodePointGuardRefusesGap()
    ensures !CanGenerateByCodePoints(seq(15, _ => '\U{1F600}'), false)
  {
    var jd := seq(15, _ => '\U{1F600}');
    assert TrimStart(jd) == jd;
    assert TrimEnd(jd) == jd;
  }

  lemma {:induction false} Utf16AllAstral(s: string)
    requires forall k :: 0 <= k < |s| ==> s[k] == '\U{1F600}'
    ensures Utf16Length(s) == 2 * |s|
  {
    if s != [] {
      Utf16AllAstral(s[..|s| - 1]);
    }
  }

  lemma TraceRegroup(a: seq<Effect>, b: seq<Effect>, c: seq<Effect>, d: seq<Effect>, e: seq<Effect>)
    ensures a + b + c + d + e == a + (b + (c + d + e))
  {
  }

  // ---------------------------------------------------------------------
  // The form

  /** The generate form's state, the backend URL it was built with and the
      log of everything its handler has done. */
  class GenerateForm {
    const backendUrl: Option<string>
    var jobDescription: string
    var resumeText: string
    var level: Level
    var loading: bool
    var statusText: string
    var error: string
    var storage: map<string, string>
    var route: Option<string>
    var effects: seq<Effect>

    function State(): FormState
      reads this
    {
      FormState(error, loading, statusText, storage, route)
    }

    /** A fresh form: empty fields, level "Intern", nothing loading. */
    constructor (backendUrl: Option<string>, storage: map<string, string>)
      ensures this.backendUrl == backendUrl
      ensures jobDescription == [] && resumeText == [] && level == Intern
      ensures State() == FormState([], false, [], storage, None) && effects == []
    {
      this.backendUrl := backendUrl;
      jobDescription := [];
      resumeText := [];
      level := Intern;
      loading := false;
      statusText := [];
      error := [];
      this.storage := storage;
      route := None;
      effects := [];
    }

    /** Performs one effect and records it. */
    method Perform(e: Effect)
      modifies this`error, this`loading, this`statusText, this`storage, this`route, this`effects
      ensures State() == Apply(old(State()), e)
      ensures effects == old(effects) + [e]
    {
      effects := effects + [e];
      match e {
        case SetError(message) => error := message;
        case SetLoading(on) => loading := on;
        case SetStatus(text) => statusText := text;
        case Post(_, _, _, _) =>
        case Store(key, value) => storage := storage[key := value];
        case Navigate(r) => route := Some(r);
      }
    }

    /** The rest of the `try` block and the `catch`: the response handled
        as `AttemptTrace` says. */
    method Respond(outcome: Outcome)
      modifies this`error, this`loading, this`statusText, this`storage, this`route, this`effects
      ensures effects == old(effects) + AttemptTrace(outcome)
      ensures Succeeds(outcome) ==>
        State() == old(State()).(statusText := GeneratingStatus,
                                 storage := old(storage)[ResultKey := outcome.json.value], route := Some(ResultRoute))
      ensures !Succeeds(outcome) ==>
        State() == old(State()).(error := GenerationFailedMessage,
                                 statusText := if outcome.Responded? && outcome.ok then GeneratingStatus else old(statusText))
    {
      var thrown := false;
      if outcome.Unreachable? || !outcome.ok {
        thrown := true;
      } else {
        Perform(SetStatus(GeneratingStatus));
        if outcome.json.None? {
          thrown := true;
        } else {
          Perform(Store(ResultKey, outcome.json.value));
          Perform(Navigate(ResultRoute));
        }
      }
      // catch
      if thrown {
        Perform(SetError(GenerationFailedMessage));
      }
    }

    /** The `try`/`catch`/`finally` of `handleGenerate`: loading on, the two
        status texts, the request, the response, then loading off and the
        status cleared. */
    method Attempt(outcome: Outcome)
      requires HasUrl(backendUrl)
      modifies this`error, this`loading, this`statusText, this`storage, this`route, this`effects
      ensures effects == old(effects) + Opening(backendUrl.value, jobDescription, resumeText, level)
                         + AttemptTrace(outcome) + Closing
      ensures Succeeds(outcome) ==>
        State() == old(State()).(loading := false, statusText := [],
                                 storage := old(storage)[ResultKey := outcome.json.value], route := Some(ResultRoute))
      ensures !Succeeds(outcome) ==>
        State() == old(State()).(error := GenerationFailedMessage, loading := false, statusText := [])
    {
      Perform(SetLoading(true));
      Perform(SetStatus(AnalyzingStatus));
      Perform(SetStatus(MappingStatus));
      Perform(Post(backendUrl.value + GeneratePath, jobDescription, resumeText, level));
      ghost var sent := effects;
      assert sent == old(effects) + Opening(backendUrl.value, jobDescription, resumeText, level);
      Respond(outcome);
      ghost var answered := effects;
      // finally
      Perform(SetLoading(false));
      Perform(SetStatus([]));
      assert effects == answered + Closing;
    }

    /** The first guard's exit: the missing-URL error, and return. */
    method RejectMissingUrl(outcome: Outcome, ghost s0: FormState, ghost e0: seq<Effect>)
      requires !HasUrl(backendUrl)
      requires effects == e0 + [SetError([])] && State() == Apply(s0, SetError([]))
      modifies this`error, this`loading, this`statusText, this`storage, this`route, this`effects
      ensures effects == e0 + GenerateTrace(backendUrl, jobDescription, resumeText, level, outcome)
      ensures State() == Replay(s0, GenerateTrace(backendUrl, jobDescription, resumeText, level, outcome))
    {
      Perform(SetError(MissingUrlMessage));
      MissingUrlStops(s0, backendUrl, jobDescription, resumeText, level, outcome);
    }

    /** The second guard's exit: the validation error, and return. */
    method RejectShortJobDescription(outcome: Outcome, ghost s0: FormState, ghost e0: seq<Effect>)
      requires HasUrl(backendUrl) && Utf16Length(Trim(jobDescription)) < MinJobDescription
      requires effects == e0 + [SetError([])] && State() == Apply(s0, SetError([]))
      modifies this`error, this`loading, this`statusText, this`storage, this`route, this`effects
      ensures effects == e0 + GenerateTrace(backendUrl, jobDescription, resumeText, level, outcome)
      ensures State() == Replay(s0, GenerateTrace(backendUrl, jobDescription, resumeText, level, outcome))
    {
      Perform(SetError(InvalidJobDescriptionMessage));
      ShortJobDescriptionStops(s0, backendUrl, jobDescription, resumeText, level, outcome);
    }

    /** Past both guards: the request and its outcome. */
    method Proceed(outcome: Outcome, ghost s0: FormState, ghost e0: seq<Effect>)
      requires HasUrl(backendUrl) && Utf16Length(Trim(jobDescription)) >= MinJobDescription
      requires effects == e0 + [SetError([])] && State() == Apply(s0, SetError([]))
      modifies this`error, this`loading, this`statusText, this`storage, this`route, this`effects
      ensures effects == e0 + GenerateTrace(backendUrl, jobDescription, resumeText, level, outcome)
      ensures State() == Replay(s0, GenerateTrace(backendUrl, jobDescription, resumeText, level, outcome))
    {
      Attempt(outcome);
      TraceRegroup(e0, [SetError([])], Opening(backendUrl.value, jobDescription, resumeText, level),
                   AttemptTrace(outcome), Closing);
      AttemptOutcome(s0, backendUrl, jobDescription, resumeText, level, outcome);
    }

    /** `handleGenerate`, the fetch ending as `outcome`. */
    method HandleGenerate(outcome: Outcome)
      modifies this`error, this`loading, this`statusText, this`storage, this`route, this`effects
      ensures effects == old(effects) + GenerateTrace(backendUrl, jobDescription, resumeText, level, outcome)
      ensures State() == Replay(old(State()), GenerateTrace(backendUrl, jobDescription, resumeText, level, outcome))
    {
      ghost var s0 := State();
      ghost var e0 := effects;
      Perform(SetError([]));
      if !HasUrl(backendUrl) {
        RejectMissingUrl(outcome, s0, e0);
        return;
      }
      if Utf16Length(Trim(jobDescription)) < MinJobDescription {
        RejectShortJobDescription(outcome, s0, e0);
        return;
      }
      Proceed(outcome, s0, e0);
    }
  }
}
