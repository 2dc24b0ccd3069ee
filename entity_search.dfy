/** The debounced search box of the list pages. It keeps a local copy of the
    search text; clearing the box is pushed to the URL parameters at once,
    other edits only when a debounce timer fires, and a change of the URL's
    search text is copied back into the box. The timer is an explicit event. */
module EntitySearch {
  import opened Wrappers

  /** `PAGINATION.DEFAULT_PAGE`; src/config/constant.ts is not part of this
      model and the first page is taken to be 1. */
  const DefaultPage := 1

  /** The list page's URL parameters: the search text, the page, and the
      page's other parameters, which the hook passes along untouched. */
  datatype Params<X> = Params(search: string, page: int, others: X)

  /** The push made as soon as the box is found empty while the URL still
      holds a search. */
  function ClearPush<X>(local: string, params: Params<X>): (r: Option<Params<X>>)
    ensures r.Some? <==> local == "" && params.search != ""
    ensures r.Some? ==> r.value.search == "" && r.value.page == DefaultPage && r.value.others == params.others
  {
    if local == "" && params.search != "" then Some(params.(search := "", page := DefaultPage)) else None
  }

  /** The push made when the debounce timer fires. */
  function TimerPush<X>(local: string, params: Params<X>): (r: Option<Params<X>>)
    ensures r.Some? <==> local != params.search
    ensures r.Some? ==> r.value.search == local && r.value.page == DefaultPage && r.value.others == params.others
  {
    if local != params.search then Some(params.(search := local, page := DefaultPage)) else None
  }

  /** Once a push comes back as the new parameters, neither rule pushes again. */
  lemma {:induction false} PushesSettle<X>(local: string, params: Params<X>)
    ensures ClearPush(local, params).Some? ==>
      var q := ClearPush(local, params).value;
      ClearPush(local, q).None? && TimerPush(local, q).None?
    ensures TimerPush(local, params).Some? ==>
      var q := TimerPush(local, params).value;
      ClearPush(local, q).None? && TimerPush(local, q).None?
  {
  }

  function AsSeq<T>(o: Option<T>): (s: seq<T>)
    ensures o.None? ==> s == []
    ensures o.Some? ==> s == [o.value]
  {
    if o.Some? then [o.value] else []
  }

  class SearchBox<X(==)> {
    /** The text in the box (`localSearch`). */
    var localSearch: string
    /** The parameters last received from the page. */
    var params: Params<X>
    /** A debounce timer is pending; there is never more than one. */
    var timerArmed: bool
    /** Every `setParams` call made so far, oldest first. */
    var pushed: seq<Params<X>>

    /** Every push so far went back to the first page. */
    ghost predicate PushesResetPage()
      reads this
    {
      forall i :: 0 <= i < |pushed| ==> pushed[i].page == DefaultPage
    }

    /** Between events, a timer is pending only when there is no clear to push. */
    ghost predicate Valid()
      reads this
    {
      PushesResetPage() && (timerArmed ==> ClearPush(localSearch, params).None?)
    }

    /** Mounting: the box starts with the URL's search text and the first
        effect arms the timer. */
    constructor (params: Params<X>)
      ensures Valid()
      ensures localSearch == params.search && this.params == params
      ensures timerArmed && pushed == []
    {
      localSearch := params.search;
      this.params := params;
      timerArmed := true;
      pushed := [];
    }

    /** The first effect, run after any change to the box or the parameters:
        the pending timer is cancelled, then either the clear is pushed at
        once or a new timer is armed. */
    method RunSearchEffect()
      requires PushesResetPage()
      modifies this
      ensures Valid()
      ensures localSearch == old(localSearch) && params == old(params)
      ensures pushed == old(pushed) + AsSeq(ClearPush(localSearch, params))
      ensures timerArmed <==> ClearPush(localSearch, params).None?
    {
      var clear := ClearPush(localSearch, params);
      if clear.Some? {
        pushed := pushed + [clear.value];
        timerArmed := false;
      } else {
        timerArmed := true;
      }
    }

    /** The user edits the box. Setting the same text again re-renders
        nothing, so the pending timer keeps running. */
    method OnSearchChange(value: string)
      requires Valid()
      modifies this
      ensures Valid()
      ensures localSearch == value && params == old(params)
      ensures value == old(localSearch) ==> timerArmed == old(timerArmed) && pushed == old(pushed)
      ensures value != old(localSearch) ==>
        && pushed == old(pushed) + AsSeq(ClearPush(value, params))
        && (timerArmed <==> ClearPush(value, params).None?)
    {
      if value != localSearch {
        localSearch := value;
        RunSearchEffect();
      }
    }

    /** The debounce timer expires: the box's text is pushed if it differs
        from the URL's. */
    method Fire()
      requires Valid()
      modifies this
      ensures Valid()
      ensures !timerArmed
      ensures localSearch == old(localSearch) && params == old(params)
      ensures old(timerArmed) ==> pushed == old(pushed) + AsSeq(TimerPush(localSearch, params))
      ensures !old(timerArmed) ==> pushed == old(pushed)
    {
      if timerArmed {
        timerArmed := false;
        var push := TimerPush(localSearch, params);
        if push.Some? {
          pushed := pushed + [push.value];
        }
      }
    }

    /** The page re-renders the hook with new parameters. The first effect
        runs before the second one copies a changed search text into the box,
        so it still sees the old text of the box. */
    method OnParamsChange(p: Params<X>)
      requires Valid()
      modifies this
      ensures Valid()
      ensures params == p
      ensures p.search != old(params.search) ==> localSearch == p.search
      ensures p.search == old(params.search) ==> localSearch == old(localSearch)
      ensures pushed == old(pushed) + AsSeq(ClearPush(old(localSearch), p))
      ensures timerArmed <==> ClearPush(localSearch, p).None?
    {
      var previous := params.search;
      params := p;
      RunSearchEffect();
      if p.search != previous && localSearch != p.search {
        localSearch := p.search;
        RunSearchEffect();
      }
    }
  }

  /** The box and the URL are both empty when the URL gains a search from
      elsewhere (a link or the browser's history): the stale empty box makes
      the first effect push a clear, even though the box then shows the new
      search text. */
  method ExternalSearchWhileEmpty() returns (box: SearchBox<int>)
    ensures box.localSearch == "report" && box.params.search == "report"
    ensures box.pushed == [Params("", DefaultPage, 0)]
  {
    box := new SearchBox(Params("", 3, 0));
    box.OnParamsChange(Params("report", 3, 0));
  }

  /** The user has typed a search that is not yet pushed when the page
      changes: the new parameters re-arm the timer, and when it fires the
      typed text is pushed with the first page, undoing the page change. */
  method PageChangeWhileTyping() returns (box: SearchBox<int>)
    ensures box.params == Params("", 2, 0) && box.localSearch == "abc"
    ensures !box.timerArmed
    ensures box.pushed == [Params("abc", DefaultPage, 0)]
  {
    box := new SearchBox(Params("", 1, 0));
    box.OnSearchChange("abc");
    box.OnParamsChange(Params("", 2, 0));
    assert box.timerArmed;
    box.Fire();
  }
}
