/** The champion grid of `frontend/src/ChampionGrid.tsx`: four state cells set by the
    handlers of one fetch of `/api/champions`, a debug log pushed in place, the search
    filter, and the choice of what is shown (loading, then error, then the empty notice,
    then the cards). */
module ChampionGrid {
  import opened Champions
  import LolApi

  /** One `logDebug` line; only which step wrote it is modelled, not its text. */
  datatype DebugEntry = Fetching | Received | RawText | ParseError | ParsedJson | FetchError

  /** The component's state cells and the contents of its debug log. */
  datatype GridState = GridState(
    champions: seq<Champion>,
    search: string,
    loading: bool,
    error: string,
    debugLog: seq<DebugEntry>)

  /** What the component renders below the search box. */
  datatype View = LoadingView | ErrorView(message: string) | EmptyView | GridView(shown: seq<Champion>)

  /** The state on the first render: no champions, empty search, loading, no error. */
  function Initial(): (s: GridState)
    ensures s.champions == [] && s.search == "" && s.loading && s.error == "" && s.debugLog == []
  {
    GridState([], "", true, "", [])
  }

  /** `logDebug`: one entry pushed at the end of the log. */
  function LogDebug(s: GridState, e: DebugEntry): (t: GridState)
    ensures |t.debugLog| == |s.debugLog| + 1 && t.debugLog[..|s.debugLog|] == s.debugLog
    ensures t.debugLog[|s.debugLog|] == e
    ensures t.(debugLog := s.debugLog) == s
  {
    s.(debugLog := s.debugLog + [e])
  }

  /** The effect's first step, before the request goes out. */
  function BeginFetch(s: GridState): (t: GridState)
    ensures t.debugLog == s.debugLog + [Fetching] && t.(debugLog := s.debugLog) == s
  {
    LogDebug(s, Fetching)
  }

  /** The entries the handlers of one settled fetch write, in order. */
  function OutcomeLog(o: FetchOutcome): (log: seq<DebugEntry>)
    ensures log != []
    ensures log[0] == Received <==> !o.FetchRejected?
    ensures log[|log| - 1] == FetchError <==> o.FetchRejected? || o.BodyReadFailed? || o == Parsed(NullBody)
    ensures log[|log| - 1] == ParseError <==> o.Unparsable?
    ensures ParsedJson in log <==> o.Parsed?
  {
    match o
    case FetchRejected => [FetchError]
    case BodyReadFailed => [Received, FetchError]
    case Unparsable => [Received, RawText, ParseError]
    case Parsed(NullBody) => [Received, RawText, ParsedJson, FetchError]
    case Parsed(Payload(_, _)) => [Received, RawText, ParsedJson]
  }

  /** The effect of the fetch's handlers once the fetch has settled: a delivered list
      replaces the champions; every other outcome sets the load error and keeps the
      champions; loading ends in every case. */
  function Settle(s: GridState, o: FetchOutcome): (t: GridState)
    ensures !t.loading && t.search == s.search
    ensures Delivers(o) ==> t.champions == o.body.champions && t.error == s.error
    ensures !Delivers(o) ==> t.champions == s.champions && t.error == LoadError
    ensures t.debugLog == s.debugLog + OutcomeLog(o)
  {
    var logged := s.(debugLog := s.debugLog + OutcomeLog(o));
    if Delivers(o) then logged.(champions := o.body.champions, loading := false)
    else logged.(error := LoadError, loading := false)
  }

  /** The search box's `onChange`. */
  function SetSearch(s: GridState, text: string): (t: GridState)
    ensures t.search == text && t.(search := s.search) == s
  {
    s.(search := text)
  }

  /** The render's conditional: loading first, then the error, then the empty notice, and
      the filtered cards otherwise. */
  function ViewOf(s: GridState): (v: View)
    ensures v == LoadingView <==> s.loading
    ensures v.ErrorView? <==> !s.loading && s.error != ""
    ensures v.ErrorView? ==> v.message == s.error
    ensures v == EmptyView <==> !s.loading && s.error == "" && forall c :: c in s.champions ==> !Matches(c, s.search)
    ensures v.GridView? ==> v.shown == Filter(s.champions, s.search)
    ensures v.GridView? ==> v.shown != [] && IsSubsequence(v.shown, s.champions)
    ensures v.GridView? ==> forall c :: c in v.shown <==> c in s.champions && Matches(c, s.search)
  {
    FilterSpec(s.champions, s.search);
    if s.loading then LoadingView
    else if s.error != "" then ErrorView(s.error)
    else
      var filtered := Filter(s.champions, s.search);
      if filtered == [] then EmptyView else GridView(filtered)
  }

  /** Before the fetch settles the view is "Loading...", whatever is typed in the search box. */
  lemma LoadingUntilSettled(text: string)
    ensures ViewOf(Initial()) == LoadingView
    ensures ViewOf(SetSearch(BeginFetch(Initial()), text)) == LoadingView
  {
  }

  /** After the one fetch settles: the load error is shown exactly when no list was
      delivered; otherwise the delivered list, filtered by the current search. */
  lemma {:induction false} ViewAfterFetch(o: FetchOutcome, text: string)
    ensures var s := SetSearch(Settle(BeginFetch(Initial()), o), text);
      (ViewOf(s) == ErrorView(LoadError) <==> !Delivers(o)) &&
      (Delivers(o) ==> s.champions == o.body.champions) &&
      (Delivers(o) && text == "" ==> ViewOf(s) == if o.body.champions == [] then EmptyView else GridView(o.body.champions))
  {
    if Delivers(o) && text == "" {
      FilterEmptySearch(o.body.champions);
    }
  }

  /** The error is never cleared: once set, later settles and search changes keep showing it. */
  lemma ErrorSticky(s: GridState, o: FetchOutcome, text: string)
    requires s.error != ""
    ensures Settle(s, o).error != "" && SetSearch(s, text).error == s.error
    ensures ViewOf(Settle(s, o)).ErrorView?
  {
  }

  /** The backend's own answer carries no `success` member, so the grid reads it as a failed
      load and shows the error even though every champion arrived. */
  lemma BackendPayloadShowsError(l: LolApi.ChampionList, cs: seq<Champion>)
    ensures BodyOf(LolApi.AsJson(l), cs) == Payload(false, cs)
    ensures ViewOf(Settle(BeginFetch(Initial()), Parsed(BodyOf(LolApi.AsJson(l), cs)))) == ErrorView(LoadError)
  {
    assert "success" !in LolApi.AsJson(l).fields;
  }

  /** The component's cells and its debug-log array, updated by its handlers. */
  class Grid {
    var champions: seq<Champion>
    var search: string
    var loading: bool
    var error: string
    var debugLog: seq<DebugEntry>

    function State(): GridState
      reads this
    {
      GridState(champions, search, loading, error, debugLog)
    }

    constructor ()
      ensures State() == Initial()
    {
      champions, search, loading, error, debugLog := [], "", true, "", [];
    }

    /** `logDebug(msg)`: `debugLogRef.current.push(msg)`. */
    method LogDebugEntry(e: DebugEntry)
      modifies this`debugLog
      ensures debugLog == old(debugLog) + [e]
    {
      debugLog := debugLog + [e];
    }

    method OnSearchChange(text: string)
      modifies this`search
      ensures State() == SetSearch(old(State()), text)
    {
      search := text;
    }

    /** The effect body up to the request. */
    method StartFetch()
      modifies this`debugLog
      ensures State() == BeginFetch(old(State()))
    {
      LogDebugEntry(Fetching);
    }

    /** `setError('Failed to load champions'); setLoading(false)`, the end of every failure path. */
    method FailLoad()
      modifies this`error, this`loading
      ensures error == LoadError && !loading
    {
      error := LoadError;
      loading := false;
    }

    /** The `.catch` handler. */
    method OnFetchError()
      modifies this`debugLog, this`error, this`loading
      ensures debugLog == old(debugLog) + [FetchError] && error == LoadError && !loading
    {
      LogDebugEntry(FetchError);
      FailLoad();
    }

    /** The `.then` handler for a response; `threw` says that an exception escaped it (the
        body could not be read, or `.success` was read on `null`). */
    method OnResponse(o: FetchOutcome) returns (threw: bool)
      requires !o.FetchRejected?
      modifies this`debugLog, this`champions, this`error, this`loading
      ensures threw <==> o.BodyReadFailed? || o == Parsed(NullBody)
      ensures threw ==> champions == old(champions) && error == old(error) && loading == old(loading)
      ensures threw ==> debugLog + [FetchError] == old(debugLog) + OutcomeLog(o)
      ensures !threw ==> State() == Settle(old(State()), o)
    {
      LogDebugEntry(Received);
      if o.BodyReadFailed? {
        return true;
      }
      LogDebugEntry(RawText);
      if o.Unparsable? {
        LogDebugEntry(ParseError);
        FailLoad();
        return false;
      }
      LogDebugEntry(ParsedJson);
      if o.body.NullBody? {
        return true;
      }
      if o.body.success {
        champions := o.body.champions;
      } else {
        error := LoadError;
      }
      loading := false;
      return false;
    }

    /** The fetch's promise chain, once the fetch has settled with `o`. */
    method OnSettled(o: FetchOutcome)
      modifies this`debugLog, this`champions, this`error, this`loading
      ensures State() == Settle(old(State()), o)
    {
      var threw := true;
      if !o.FetchRejected? {
        threw := OnResponse(o);
      }
      if threw {
        OnFetchError();
      }
    }
  }
}
