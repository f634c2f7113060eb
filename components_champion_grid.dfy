/** The champion grid of `frontend/src/components/ChampionGrid.tsx`: the same search filter
    as the other grid, three state cells set by the handlers of one fetch, and a page whose
    loading indicator, error message and empty notice are each shown on their own condition
    around a heading and a grid container that are always there. */
module ComponentsChampionGrid {
  import opened Champions
  import LolApi

  datatype GridState = GridState(champions: seq<Champion>, search: string, loading: bool, error: string)

  /** The rendered elements, top to bottom. `Cards` is the grid container: the filtered
      cards and, when `emptyNotice` holds, "No champions found." after them. */
  datatype Element =
    | Heading(text: string)
    | SearchBox(value: string)
    | LoadingIndicator
    | ErrorMessage(message: string)
    | Cards(shown: seq<Champion>, emptyNotice: bool)

  const HeadingText := "Champion Grid"

  function Initial(): (s: GridState)
    ensures s.champions == [] && s.search == "" && s.loading && s.error == ""
  {
    GridState([], "", true, "")
  }

  /** The handlers once the fetch has settled: `res.json()` failing, a `null` body and a
      rejected fetch all reach the `.catch` handler, which sets the error; a body whose
      `success` is falsy sets it too; loading ends in every case. */
  function Settle(s: GridState, o: FetchOutcome): (t: GridState)
    ensures !t.loading && t.search == s.search
    ensures Delivers(o) ==> t.champions == o.body.champions && t.error == s.error
    ensures !Delivers(o) ==> t.champions == s.champions && t.error == LoadError
  {
    if Delivers(o) then s.(champions := o.body.champions, loading := false)
    else s.(error := LoadError, loading := false)
  }

  /** The render: heading, search box, the indicator while loading, the error when one is
      set, and the grid container with the notice when not loading and nothing matches. */
  function Render(s: GridState): (page: seq<Element>)
    ensures |page| == 3 + (if s.loading then 1 else 0) + (if s.error != "" then 1 else 0)
    ensures page[0] == Heading(HeadingText) && page[1] == SearchBox(s.search)
    ensures page[|page| - 1] == Cards(Filter(s.champions, s.search), !s.loading && Filter(s.champions, s.search) == [])
    ensures LoadingIndicator in page <==> s.loading
    ensures forall i :: 0 <= i < |page| && page[i].ErrorMessage? ==> page[i].message == s.error
    ensures ErrorMessage(s.error) in page <==> s.error != ""
  {
    var filtered := Filter(s.champions, s.search);
    [Heading(HeadingText), SearchBox(s.search)]
      + (if s.loading then [LoadingIndicator] else [])
      + (if s.error != "" then [ErrorMessage(s.error)] else [])
      + [Cards(filtered, !s.loading && filtered == [])]
  }

  /** The heading comes first and the grid container last, once each, in every state. */
  lemma AlwaysRendered(s: GridState)
    ensures forall i :: 0 <= i < |Render(s)| && Render(s)[i].Heading? ==> i == 0
    ensures forall i :: 0 <= i < |Render(s)| && Render(s)[i].Cards? ==> i == |Render(s)| - 1
    ensures Render(s)[0] == Heading(HeadingText) && Render(s)[|Render(s)| - 1].Cards?
  {
  }

  /** The indicator depends on `loading` alone and the error message on `error` alone. */
  lemma IndicatorsIndependent(s: GridState, loading: bool, error: string)
    ensures LoadingIndicator in Render(s.(error := error)) <==> LoadingIndicator in Render(s)
    ensures (ErrorMessage(s.error) in Render(s.(loading := loading))) <==> (ErrorMessage(s.error) in Render(s))
  {
  }

  /** "No champions found." is shown exactly when not loading and no champion matches the
      search, whether or not an error is shown beside it. */
  lemma EmptyNoticeIff(s: GridState)
    ensures Render(s)[|Render(s)| - 1].emptyNotice <==>
      !s.loading && forall c :: c in s.champions ==> !Matches(c, s.search)
  {
    FilterEmptyIff(s.champions, s.search);
  }

  /** A failed first load shows the error and, the list being still empty, the empty notice
      beside it; a delivered list with the empty search shows every champion. */
  lemma AfterFirstFetch(o: FetchOutcome)
    ensures !Delivers(o) ==>
      ErrorMessage(LoadError) in Render(Settle(Initial(), o)) &&
      Render(Settle(Initial(), o)) == [Heading(HeadingText), SearchBox(""), ErrorMessage(LoadError), Cards([], true)]
    ensures Delivers(o) ==>
      Render(Settle(Initial(), o)) == [Heading(HeadingText), SearchBox(""), Cards(o.body.champions, o.body.champions == [])]
  {
    if Delivers(o) {
      FilterEmptySearch(o.body.champions);
    }
  }

  /** The backend's own answer has no `success` member, so this grid too reports a failed
      load for it. */
  lemma BackendPayloadShowsError(l: LolApi.ChampionList, cs: seq<Champion>)
    ensures !Delivers(Parsed(BodyOf(LolApi.AsJson(l), cs)))
    ensures Settle(Initial(), Parsed(BodyOf(LolApi.AsJson(l), cs))).error == LoadError
  {
    assert "success" !in LolApi.AsJson(l).fields;
  }

  /** The component's three `useState` cells besides the search text. */
  class Grid {
    var champions: seq<Champion>
    var search: string
    var loading: bool
    var error: string

    function State(): GridState
      reads this
    {
      GridState(champions, search, loading, error)
    }

    constructor ()
      ensures State() == Initial()
    {
      champions, search, loading, error := [], "", true, "";
    }

    method OnSearchChange(text: string)
      modifies this`search
      ensures State() == old(State()).(search := text)
    {
      search := text;
    }

    /** The `.then` chain and its `.catch`, run once the fetch has settled with `o`. */
    method OnSettled(o: FetchOutcome)
      modifies this
      ensures State() == Settle(old(State()), o)
    {
      if o.Parsed? && o.body.Payload? {
        if o.body.success {
          champions := o.body.champions;
        } else {
          error := LoadError;
        }
        loading := false;
      } else {
        // a rejected fetch, a failing `res.json()`, or `null.success` throwing
        error := LoadError;
        loading := false;
      }
    }
  }
}
