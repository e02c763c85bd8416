/** The search page: the result list and its flags, the search handler, the reset on a
    change of user, the restore of the last search, and the claimed-first ordering of
    the displayed results. */
module HomePage {
  import opened Common
  import opened Entities
  import opened Interaction

  /** The comparator the page sorts with: `Number(b.claimed) - Number(a.claimed)`. */
  function Rank(b: Business): int {
    if b.claimed then 1 else 0
  }

  function Compare(a: Business, b: Business): int {
    Rank(b) - Rank(a)
  }

  /** One step of a stable insertion sort: `x` goes before the first element it must
      precede and after every element it ties with. */
  function Insert(x: Business, sorted: seq<Business>): seq<Business> {
    if sorted == [] then [x]
    else if Compare(x, sorted[0]) < 0 then [x] + sorted
    else [sorted[0]] + Insert(x, sorted[1..])
  }

  /** `[...businesses].sort(compare)`. The array sort is stable, and any stable sort
      under this comparator produces the same order; insertion sort is used here. */
  function SortByClaimed(s: seq<Business>): seq<Business>
    decreases |s|
  {
    if s == [] then [] else Insert(s[|s| - 1], SortByClaimed(s[..|s| - 1]))
  }

  predicate AllClaimed(s: seq<Business>) {
    forall i :: 0 <= i < |s| ==> s[i].claimed
  }

  predicate NoneClaimed(s: seq<Business>) {
    forall i :: 0 <= i < |s| ==> !s[i].claimed
  }

  /** An unclaimed business ties with or follows everything, so it goes last. */
  lemma {:induction false} InsertUnclaimed(x: Business, t: seq<Business>)
    requires !x.claimed
    ensures Insert(x, t) == t + [x]
  {
    if t != [] {
      InsertUnclaimed(x, t[1..]);
      assert t == [t[0]] + t[1..];
    }
  }

  /** A claimed business goes after the claimed block and before the unclaimed one. */
  lemma {:induction false} InsertClaimed(x: Business, c: seq<Business>, u: seq<Business>)
    requires x.claimed && AllClaimed(c) && NoneClaimed(u)
    ensures Insert(x, c + u) == c + [x] + u
  {
    if c == [] {
      assert c + u == u;
    } else {
      assert (c + u)[1..] == c[1..] + u;
      InsertClaimed(x, c[1..], u);
      assert c + [x] + u == [c[0]] + (c[1..] + [x] + u);
    }
  }

  lemma FilterNoneKept(keep: Business -> bool, s: seq<Business>)
    requires forall i :: 0 <= i < |s| ==> !keep(s[i])
    ensures Filter(keep, s) == []
  {
  }

  /** Filtering a one-element list keeps it or drops it. */
  lemma FilterSingle(keep: Business -> bool, x: Business)
    ensures Filter(keep, [x]) == if keep(x) then [x] else []
  {
    assert [x][1..] == [];
  }

  /** The sort produces the claimed businesses, then the unclaimed ones, each group in
      its original order. */
  lemma {:induction false} SortIsPartition(s: seq<Business>)
    ensures SortByClaimed(s) == Filter(IsClaimed, s) + Filter(IsUnclaimed, s)
    decreases |s|
  {
    if s != [] {
      var p := s[..|s| - 1];
      var x := s[|s| - 1];
      assert s == p + [x];
      SortIsPartition(p);
      var c := Filter(IsClaimed, p);
      var u := Filter(IsUnclaimed, p);
      assert SortByClaimed(s) == Insert(x, c + u);
      FilterConcat(IsClaimed, p, [x]);
      FilterConcat(IsUnclaimed, p, [x]);
      FilterSingle(IsClaimed, x);
      FilterSingle(IsUnclaimed, x);
      if x.claimed {
        assert AllClaimed(c) && NoneClaimed(u);
        InsertClaimed(x, c, u);
        assert Filter(IsClaimed, s) == c + [x] && Filter(IsUnclaimed, s) == u;
      } else {
        InsertUnclaimed(x, c + u);
        assert Filter(IsClaimed, s) == c && Filter(IsUnclaimed, s) == u + [x];
      }
    }
  }

  /** Splitting by the claimed flag loses and duplicates nothing. */
  lemma {:induction false} PartitionIsPermutation(s: seq<Business>)
    ensures multiset(Filter(IsClaimed, s)) + multiset(Filter(IsUnclaimed, s)) == multiset(s)
  {
    if s != [] {
      var x := s[0];
      var t := s[1..];
      assert s == [x] + t;
      PartitionIsPermutation(t);
      FilterConcat(IsClaimed, [x], t);
      FilterConcat(IsUnclaimed, [x], t);
      FilterSingle(IsClaimed, x);
      FilterSingle(IsUnclaimed, x);
      assert multiset(Filter(IsClaimed, [x])) + multiset(Filter(IsUnclaimed, [x])) == multiset([x]);
    }
  }

  /** The order in which results are displayed. */
  function ClaimedFirst(s: seq<Business>): (r: seq<Business>)
    ensures multiset(r) == multiset(s)
    ensures forall i, j :: 0 <= i < j < |r| && r[j].claimed ==> r[i].claimed
    ensures Filter(IsClaimed, r) == Filter(IsClaimed, s)
    ensures Filter(IsUnclaimed, r) == Filter(IsUnclaimed, s)
  {
    SortIsPartition(s);
    PartitionIsPermutation(s);
    var c := Filter(IsClaimed, s);
    var u := Filter(IsUnclaimed, s);
    FilterConcat(IsClaimed, c, u);
    FilterConcat(IsUnclaimed, c, u);
    FilterKeepsAll(IsClaimed, c);
    FilterKeepsAll(IsUnclaimed, u);
    FilterNoneKept(IsClaimed, u);
    FilterNoneKept(IsUnclaimed, c);
    SortByClaimed(s)
  }

  datatype Home = Home(businesses: seq<Business>, loading: bool, error: string, searched: bool)

  const Initial := Home([], false, "", false)

  const SearchFailed := "Search failed. Please try again."

  /** What the page keeps in session storage: the last results and the `searched` flag,
      each absent until written. */
  datatype Saved = Saved(results: Option<seq<Business>>, searched: Option<string>)

  const NothingSaved := Saved(None, None)

  datatype Outcome = Outcome(home: Home, saved: Saved, effects: Effects)

  /** `handleSearch(location, type)`. The service resolves to the response body, and the
      page reads the list at that body's `data.data` (`response.data?.data`); a successful
      reply carries that list, `None` when it is absent. Only a success is written to storage. */
  function Search(h: Home, saved: Saved, location: string, businessType: string, reply: Reply<Option<seq<Business>>>): (r: Outcome)
    ensures r.effects == Effects([SearchCall(location, businessType)], None)
    ensures r.home.searched && !r.home.loading
    ensures reply.Ok? ==> r.home.error == ""
    ensures reply.Ok? && reply.payload.Some? ==> r.home.businesses == reply.payload.value
    ensures reply.Ok? && reply.payload.None? ==> r.home.businesses == []
    ensures reply.Ok? ==> r.saved == Saved(Some(r.home.businesses), Some("true"))
    ensures reply.Err? ==>
      r.home.businesses == [] && r.home.error == ErrorText(reply.message, SearchFailed) && r.saved == saved
  {
    var started := h.(error := "", loading := true, searched := true);
    var calls := [SearchCall(location, businessType)];
    match reply
    case Ok(data) =>
      var results := if data.Some? then data.value else [];
      Outcome(started.(businesses := results, loading := false), Saved(Some(results), Some("true")), Effects(calls, None))
    case Err(m) =>
      Outcome(started.(error := ErrorText(m, SearchFailed), businesses := [], loading := false), saved, Effects(calls, None))
  }

  /** The effect run whenever the signed-in user changes. */
  function UserChanged(h: Home): (r: Home)
    ensures r.businesses == [] && !r.searched && r.error == ""
    ensures r.loading == h.loading
  {
    h.(businesses := [], searched := false, error := "")
  }

  /** After a change of user the page shows neither results nor the empty state. */
  lemma UserChangeShowsNothing(h: Home)
    ensures !ShowsResults(UserChanged(h)) && !ShowsEmptyState(UserChanged(h))
  {
  }

  /** The restore effect: the stored results, if any, and the stored flag, which counts
      only when it is exactly `"true"`. */
  function Restore(h: Home, saved: Saved): (r: Home)
    ensures saved.results.Some? ==> r.businesses == saved.results.value
    ensures saved.results.None? ==> r.businesses == h.businesses
    ensures r.searched <==> h.searched || saved.searched == Some("true")
    ensures r.error == h.error && r.loading == h.loading
  {
    var h1 := if saved.results.Some? then h.(businesses := saved.results.value) else h;
    if saved.searched == Some("true") then h1.(searched := true) else h1
  }

  /** Returning to a fresh page after a successful search brings back exactly the results
      and the `searched` flag that search left; after only failed searches nothing comes back. */
  lemma RestoreAfterSearch(h: Home, saved: Saved, location: string, businessType: string, reply: Reply<Option<seq<Business>>>)
    ensures var r := Search(h, saved, location, businessType, reply);
            reply.Ok? ==> Restore(Initial, r.saved) == r.home
    ensures reply.Err? && saved == NothingSaved ==>
            Restore(Initial, Search(h, saved, location, businessType, reply).saved) == Initial
  {
  }

  /** "No businesses found" is shown after a search that returned nothing and did not fail. */
  predicate ShowsEmptyState(h: Home) {
    !h.loading && h.searched && h.businesses == [] && h.error == ""
  }

  predicate ShowsResults(h: Home) {
    !h.loading && h.businesses != []
  }

  /** A completed search shows exactly one of: the results, the empty state, or the error banner. */
  lemma SearchShowsOneOutcome(h: Home, saved: Saved, location: string, businessType: string, reply: Reply<Option<seq<Business>>>)
    ensures var r := Search(h, saved, location, businessType, reply).home;
            && !(ShowsEmptyState(r) && ShowsResults(r))
            && (ShowsResults(r) <==> reply.Ok? && reply.payload.Some? && reply.payload.value != [])
            && (ShowsEmptyState(r) <==> reply.Ok? && (reply.payload.None? || reply.payload.value == []))
  {
  }
}
