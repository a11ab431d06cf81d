/** The incremental change feed: what one page holds, and what a sequence of pages delivers. */
module ChangeFeed {
  import opened Prelude
  import opened StoreState

  /** An empty id and an empty status set match everything. */
  datatype Filter = Filter(appID: string, statuses: set<string>)

  predicate Matches(rec: ApplicationRecord, f: Filter) {
    (f.appID == "" || rec.applicationID == f.appID) && (f.statuses == {} || rec.status in f.statuses)
  }

  /** The matching applications changed strictly after `since`. */
  function Changed(st: State, since: Time, f: Filter): set<string> {
    set id | id in st.apps && st.apps[id].changedAt > since && Matches(st.apps[id], f)
  }

  /** Known applications, none twice, by ascending change stamp. */
  ghost predicate InOrder(st: State, ids: seq<string>) {
    && (forall i :: 0 <= i < |ids| ==> ids[i] in st.apps)
    && (forall i, j :: 0 <= i < j < |ids| ==>
          ids[i] != ids[j] && st.apps[ids[i]].changedAt <= st.apps[ids[j]].changedAt)
  }

  /** `page` lists the earliest changes after `since`, in order; a positive limit cuts it. */
  ghost predicate IsPage(st: State, since: Time, limit: int, f: Filter, page: seq<string>, hasMore: bool) {
    var changed := Changed(st, since, f);
    && (forall id :: id in page ==> id in changed)
    && InOrder(st, page)
    && (forall x, y :: x in page && y in changed && y !in page ==> st.apps[x].changedAt <= st.apps[y].changedAt)
    && (if limit > 0 && |changed| > limit then |page| == limit && hasMore
        else !hasMore && forall id :: id in changed ==> id in page)
  }

  /** The cursor a consumer continues with: the last change it was given. */
  function Cursor(st: State, since: Time, page: seq<string>): Time
    requires forall id :: id in page ==> id in st.apps
  {
    if page == [] then since else st.apps[page[|page| - 1]].changedAt
  }

  /** One answer of the feed. */
  datatype Answer = Answer(page: seq<string>, hasMore: bool)

  /** Pages drawn one after the other from an unchanging store, until no more is announced. */
  ghost predicate Walks(st: State, since: Time, limit: int, f: Filter, walk: seq<Answer>)
    decreases |walk|
  {
    && walk != []
    && IsPage(st, since, limit, f, walk[0].page, walk[0].hasMore)
    && if walk[0].hasMore then Walks(st, Cursor(st, since, walk[0].page), limit, f, walk[1..]) else |walk| == 1
  }

  function Delivered(walk: seq<Answer>): seq<string>
    decreases |walk|
  {
    if walk == [] then [] else walk[0].page + Delivered(walk[1..])
  }

  /** The rest of a group of equal stamps cut by the end of a page. */
  function SplitOff(st: State, since: Time, f: Filter, answer: Answer): set<string>
    requires forall id :: id in answer.page ==> id in st.apps
  {
    if answer.hasMore then
      set id | id in Changed(st, since, f) && id !in answer.page
          && st.apps[id].changedAt == Cursor(st, since, answer.page)
    else {}
  }

  function Lost(st: State, since: Time, limit: int, f: Filter, walk: seq<Answer>): set<string>
    requires Walks(st, since, limit, f, walk)
    decreases |walk|
  {
    SplitOff(st, since, f, walk[0]) +
    if walk[0].hasMore then Lost(st, Cursor(st, since, walk[0].page), limit, f, walk[1..]) else {}
  }

  lemma PageGoesBefore(st: State, since: Time, limit: int, f: Filter, answer: Answer)
    requires limit > 0 && IsPage(st, since, limit, f, answer.page, answer.hasMore) && answer.hasMore
    ensures since < Cursor(st, since, answer.page)
    ensures forall id :: id in answer.page ==>
              id in Changed(st, since, f) && st.apps[id].changedAt <= Cursor(st, since, answer.page)
    ensures forall id :: id in Changed(st, since, f) && id !in answer.page ==>
              Cursor(st, since, answer.page) <= st.apps[id].changedAt
  {
    var page := answer.page;
    assert page[|page| - 1] in page;
  }

  /** What a page leaves is the split-off rest of its last group and what the next cursor will still find. */
  lemma PageSplits(st: State, since: Time, limit: int, f: Filter, answer: Answer)
    requires limit > 0 && IsPage(st, since, limit, f, answer.page, answer.hasMore) && answer.hasMore
    ensures var next := Cursor(st, since, answer.page);
            var (page, split, later) := (Elements(answer.page), SplitOff(st, since, f, answer), Changed(st, next, f));
            && since < next
            && Changed(st, since, f) == page + split + later
            && page !! split && page !! later && split !! later
  {
    PageGoesBefore(st, since, limit, f, answer);
  }

  lemma Remaining<T>(page: set<T>, split: set<T>, later: set<T>, got: set<T>, lost: set<T>)
    requires page !! split && page !! later && split !! later && lost <= later && got == later - lost
    ensures page + got == (page + split + later) - (split + lost)
  {
  }

  /** A page walk delivers every changed record except exactly the split-off rests. */
  lemma {:induction false} WalkDelivers(st: State, since: Time, limit: int, f: Filter, walk: seq<Answer>)
    requires limit > 0 && Walks(st, since, limit, f, walk)
    ensures Lost(st, since, limit, f, walk) <= Changed(st, since, f)
    ensures Elements(Delivered(walk)) == Changed(st, since, f) - Lost(st, since, limit, f, walk)
    decreases |walk|
  {
    var page := walk[0].page;
    DeliveredElements(walk);
    if walk[0].hasMore {
      var next := Cursor(st, since, page);
      WalkDelivers(st, next, limit, f, walk[1..]);
      PageSplits(st, since, limit, f, walk[0]);
      Remaining(Elements(page), SplitOff(st, since, f, walk[0]), Changed(st, next, f), Elements(Delivered(walk[1..])),
                Lost(st, next, limit, f, walk[1..]));
    } else {
      LastPage(st, since, limit, f, walk[0]);
    }
  }

  lemma DeliveredElements(walk: seq<Answer>)
    requires walk != []
    ensures Elements(Delivered(walk)) == Elements(walk[0].page) + Elements(Delivered(walk[1..]))
  {
  }

  lemma LastPage(st: State, since: Time, limit: int, f: Filter, answer: Answer)
    requires IsPage(st, since, limit, f, answer.page, answer.hasMore) && !answer.hasMore
    ensures Elements(answer.page) == Changed(st, since, f)
  {
  }

  /** It delivers none twice, in the order of the change stamps. */
  lemma {:induction false} WalkInOrder(st: State, since: Time, limit: int, f: Filter, walk: seq<Answer>)
    requires limit > 0 && Walks(st, since, limit, f, walk)
    ensures InOrder(st, Delivered(walk))
    ensures forall i :: 0 <= i < |Delivered(walk)| ==> Delivered(walk)[i] in Changed(st, since, f)
    decreases |walk|
  {
    var page, rest := walk[0].page, Delivered(walk[1..]);
    if walk[0].hasMore {
      var next := Cursor(st, since, page);
      WalkInOrder(st, next, limit, f, walk[1..]);
      OrderedPage(st, since, limit, f, walk[0], rest);
    } else {
      assert rest == [];
      assert Delivered(walk) == page;
    }
  }

  lemma OrderedPage(st: State, since: Time, limit: int, f: Filter, answer: Answer, rest: seq<string>)
    requires limit > 0 && IsPage(st, since, limit, f, answer.page, answer.hasMore) && answer.hasMore
    requires InOrder(st, rest) && forall i :: 0 <= i < |rest| ==>
             rest[i] in Changed(st, Cursor(st, since, answer.page), f)
    ensures InOrder(st, answer.page + rest)
    ensures forall i :: 0 <= i < |answer.page + rest| ==> (answer.page + rest)[i] in Changed(st, since, f)
  {
  }

  /** The page walk is the unpaged result exactly when no page break splits a group of equal stamps. */
  lemma WalkIsUnpaged(st: State, since: Time, limit: int, f: Filter, walk: seq<Answer>)
    requires limit > 0 && Walks(st, since, limit, f, walk)
    ensures IsPage(st, since, 0, f, Delivered(walk), false) <==> Lost(st, since, limit, f, walk) == {}
  {
    WalkDelivers(st, since, limit, f, walk);
    WalkInOrder(st, since, limit, f, walk);
    assert forall id :: id in Delivered(walk) <==> id in Elements(Delivered(walk));
  }

  /** Pages drawn one after the other from an unchanging store, each of which announces more. */
  ghost predicate Continues(st: State, since: Time, limit: int, f: Filter, pages: seq<seq<string>>)
    decreases |pages|
  {
    pages == [] || (IsPage(st, since, limit, f, pages[0], true)
                    && Continues(st, Cursor(st, since, pages[0]), limit, f, pages[1..]))
  }

  /** Polling ends: no more than a `limit`-th of the changes, rounded down, can be pages that announce more. */
  lemma {:induction false} WalkEnds(st: State, since: Time, limit: int, f: Filter, pages: seq<seq<string>>)
    requires limit > 0 && Continues(st, since, limit, f, pages)
    ensures |pages| * limit <= |Changed(st, since, f)|
    decreases |pages|
  {
    if pages != [] {
      WalkEnds(st, Cursor(st, since, pages[0]), limit, f, pages[1..]);
      PageUsesUp(st, since, limit, f, pages[0]);
      OnePageMore(|pages[1..]|, limit);
    }
  }

  lemma OnePageMore(n: nat, limit: int)
    ensures (n + 1) * limit == n * limit + limit
  {
  }

  /** A page that announces more leaves `limit` records fewer to find. */
  lemma PageUsesUp(st: State, since: Time, limit: int, f: Filter, page: seq<string>)
    requires limit > 0 && IsPage(st, since, limit, f, page, true)
    ensures |Changed(st, Cursor(st, since, page), f)| + limit <= |Changed(st, since, f)|
  {
    PageSplits(st, since, limit, f, Answer(page, true));
    DistinctSize(page);
    DisjointParts(Changed(st, Cursor(st, since, page), f), Elements(page), Changed(st, since, f));
  }

  lemma DisjointParts(a: set<string>, b: set<string>, whole: set<string>)
    requires a !! b && a + b <= whole
    ensures |a| + |b| <= |whole|
  {
    assert |a + b| == |a| + |b|;
    SubsetSize(a + b, whole);
  }

  /** Distinct stamps leave no group to split. */
  lemma {:induction false} DistinctStampsLoseNothing(st: State, since: Time, limit: int, f: Filter, walk: seq<Answer>)
    requires limit > 0 && Walks(st, since, limit, f, walk)
    requires forall a, b :: a in st.apps && b in st.apps && a != b ==> st.apps[a].changedAt != st.apps[b].changedAt
    ensures Lost(st, since, limit, f, walk) == {}
    decreases |walk|
  {
    if walk[0].hasMore {
      var page := walk[0].page;
      assert page[|page| - 1] in page;
      DistinctStampsLoseNothing(st, Cursor(st, since, page), limit, f, walk[1..]);
    }
  }
}
