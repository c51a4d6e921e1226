/**
 Keyset pagination (Repository.List, internal/kubernetes/repository.go): following the cursor finds every agent that
 stays, exactly once, even while the store changes between the pages.
 */
module Listing {
  import opened Prelude
  import opened Lifecycle

  /** What the listing reads of an agent. Only the order of the identifiers matters. */
  datatype Record = Record(id: nat, owner: nat, state: State, name: nat)

  datatype Filter = Filter(owner: nat, state: Option<State>, name: Option<nat>)

  /** The cursor of a request: none, the decoded identifier, or something that does not decode. */
  datatype Cursor = Beginning | Beyond(id: nat) | Garbled

  datatype Page = Page(items: seq<Record>, next: Option<nat>)

  datatype Refusal = InvalidCursor

  predicate Match(r: Record, f: Filter) {
    && r.owner == f.owner
    && (f.state.Some? ==> r.state == f.state.value)
    && (f.name.Some? ==> r.name == f.name.value)
  }

  predicate Past(id: nat, c: Cursor) { c.Beyond? ==> c.id < id }

  predicate Ascending(s: seq<Record>) { forall i, j :: 0 <= i < j < |s| ==> s[i].id < s[j].id }

  predicate Distinct(s: seq<Record>) { forall i, j :: 0 <= i < j < |s| ==> s[i].id != s[j].id }

  // ---------- the specification ----------

  function Selected(store: seq<Record>, f: Filter): seq<Record> {
    if store == [] then []
    else Selected(store[..|store| - 1], f) + if Match(store[|store| - 1], f) then [store[|store| - 1]] else []
  }

  function Inserted(s: seq<Record>, r: Record): seq<Record> {
    if s == [] || r.id < s[0].id then [r] + s else [s[0]] + Inserted(s[1..], r)
  }

  function ById(s: seq<Record>): seq<Record> {
    if s == [] then [] else Inserted(ById(s[..|s| - 1]), s[|s| - 1])
  }

  /** The matching agents in the order of their identifiers. */
  function Listed(store: seq<Record>, f: Filter): seq<Record> { ById(Selected(store, f)) }

  function From(s: seq<Record>, c: Cursor): seq<Record> {
    if s == [] || Past(s[0].id, c) then s else From(s[1..], c)
  }

  function Limit(limit: nat): (n: nat)
    ensures n > 0
  {
    if limit == 0 then 50 else limit
  }

  function Cut(rest: seq<Record>, limit: nat): Page
    requires limit > 0
  {
    if |rest| > limit then Page(rest[..limit], Some(rest[limit - 1].id)) else Page(rest, None)
  }

  function PageOf(store: seq<Record>, f: Filter, c: Cursor, limit: nat): Page {
    Cut(From(Listed(store, f), c), Limit(limit))
  }

  // ---------- what is listed ----------

  lemma {:induction false} SelectedExactly(store: seq<Record>, f: Filter, r: Record)
    ensures r in Selected(store, f) <==> r in store && Match(r, f)
  {
    if store == [] {
    } else {
      SelectedExactly(store[..|store| - 1], f, r);
      assert store == store[..|store| - 1] + [store[|store| - 1]];
    }
  }

  lemma {:induction false} SelectedDistinct(store: seq<Record>, f: Filter)
    requires Distinct(store)
    ensures Distinct(Selected(store, f))
  {
    if store == [] {
    } else {
      var init, last := store[..|store| - 1], store[|store| - 1];
      SelectedDistinct(init, f);
      forall r | r in Selected(init, f) ensures r.id != last.id {
        SelectedExactly(init, f, r);
      }
    }
  }

  lemma {:induction false} InsertedHolds(s: seq<Record>, r: Record)
    ensures multiset(Inserted(s, r)) == multiset(s) + multiset{r}
  {
    if s == [] || r.id < s[0].id {
    } else {
      assert s == [s[0]] + s[1..];
      InsertedHolds(s[1..], r);
    }
  }

  lemma {:induction false} InsertedAscends(s: seq<Record>, r: Record)
    requires Ascending(s) && forall i :: 0 <= i < |s| ==> s[i].id != r.id
    ensures Ascending(Inserted(s, r))
  {
    if s == [] || r.id < s[0].id {
    } else {
      InsertedAscends(s[1..], r);
      InsertedHolds(s[1..], r);
      var t := Inserted(s[1..], r);
      forall i | 0 <= i < |t| ensures s[0].id < t[i].id {
        assert t[i] in multiset(t);
      }
    }
  }

  lemma {:induction false} ByIdIs(s: seq<Record>)
    requires Distinct(s)
    ensures Ascending(ById(s)) && multiset(ById(s)) == multiset(s)
  {
    if s == [] {
    } else {
      var init, last := s[..|s| - 1], s[|s| - 1];
      ByIdIs(init);
      assert s == init + [last];
      forall x | x in ById(init) ensures x.id != last.id {
        assert x in multiset(ById(init));
      }
      InsertedAscends(ById(init), last);
      InsertedHolds(ById(init), last);
    }
  }

  /** The listing is in order and holds exactly the matching agents. */
  lemma ListedExactly(store: seq<Record>, f: Filter)
    requires Distinct(store)
    ensures Ascending(Listed(store, f))
    ensures forall r :: r in Listed(store, f) <==> r in store && Match(r, f)
  {
    SelectedDistinct(store, f);
    ByIdIs(Selected(store, f));
    forall r ensures r in Listed(store, f) <==> r in store && Match(r, f) {
      SelectedExactly(store, f, r);
      assert r in Listed(store, f) <==> r in multiset(Listed(store, f));
    }
  }

  /** Nobody sees the agents of another owner, whatever the filters. */
  lemma OwnersAreApart(store: seq<Record>, f: Filter, r: Record)
    requires Distinct(store) && r in Listed(store, f)
    ensures r.owner == f.owner
    ensures forall g: Filter :: r in Listed(store, g) ==> g.owner == f.owner
  {
    ListedExactly(store, f);
    forall g: Filter | r in Listed(store, g)
      ensures g.owner == f.owner
    {
      ListedExactly(store, g);
    }
  }

  /** Without filters an owner sees all its agents; a state and a name narrow that listing to exactly those that have them. */
  lemma FiltersNarrow(store: seq<Record>, f: Filter, r: Record)
    requires Distinct(store)
    ensures r in Listed(store, Filter(f.owner, None, None)) <==> r in store && r.owner == f.owner
    ensures r in Listed(store, f) <==>
      && r in Listed(store, Filter(f.owner, None, None))
      && (f.state == None || f.state == Some(r.state)) && (f.name == None || f.name == Some(r.name))
  {
    ListedExactly(store, f);
    ListedExactly(store, Filter(f.owner, None, None));
  }

  lemma {:induction false} FromIs(s: seq<Record>, c: Cursor)
    requires Ascending(s)
    ensures Ascending(From(s, c))
    ensures forall r :: r in From(s, c) <==> r in s && Past(r.id, c)
    ensures |From(s, c)| <= |s| && From(s, c) == s[|s| - |From(s, c)|..]
  {
    if s == [] || Past(s[0].id, c) {
      assert s == s[0..];
    } else {
      assert s == [s[0]] + s[1..];
      FromIs(s[1..], c);
      assert From(s, c) == s[1..][|s[1..]| - |From(s, c)|..];
    }
  }

  /** Which agents a page holds. */
  predicate OnPage(r: Record, p: Page, c: Cursor) { Past(r.id, c) && (p.next.Some? ==> r.id <= p.next.value) }

  /** One page: at most `limit` agents in order, exactly the matching ones between the cursor and the next cursor; there
      is a next cursor exactly when a matching agent lies beyond it. */
  lemma PageExactly(store: seq<Record>, f: Filter, c: Cursor, limit: nat)
    requires Distinct(store)
    ensures
      var p := PageOf(store, f, c, limit);
      && Ascending(p.items) && |p.items| <= Limit(limit)
      && (forall r :: r in p.items <==> r in store && Match(r, f) && OnPage(r, p, c))
      && (p.next.Some? <==> exists r :: r in store && Match(r, f) && Past(r.id, c) && r !in p.items)
      && (p.next.Some? ==> |p.items| == Limit(limit) && p.next.value == p.items[|p.items| - 1].id)
  {
    ListedExactly(store, f);
    var rest := From(Listed(store, f), c);
    FromIs(Listed(store, f), c);
    CutExactly(rest, Limit(limit));
    var p := Cut(rest, Limit(limit));
    forall r ensures r in p.items <==> r in store && Match(r, f) && OnPage(r, p, c) {
      assert r in rest <==> r in store && Match(r, f) && Past(r.id, c);
    }
    if p.next.Some? {
      assert rest[Limit(limit)] in rest;
    }
  }

  lemma CutExactly(rest: seq<Record>, limit: nat)
    requires Ascending(rest) && limit > 0
    ensures
      var p := Cut(rest, limit);
      && Ascending(p.items) && |p.items| <= limit
      && (forall r :: r in p.items <==> r in rest && (p.next.Some? ==> r.id <= p.next.value))
      && (p.next.Some? <==> |rest| > limit)
      && (p.next.Some? ==> |p.items| == limit && p.next.value == p.items[limit - 1].id && rest[limit] !in p.items)
  {
  }

  /** Without a limit a page holds up to fifty agents; with one, everything that is left if it fits. */
  lemma LimitsExactly(store: seq<Record>, f: Filter, c: Cursor, limit: nat)
    ensures PageOf(store, f, c, 0) == PageOf(store, f, c, 50)
    ensures limit > 0 && |From(Listed(store, f), c)| <= limit ==> PageOf(store, f, c, limit) == Page(From(Listed(store, f), c), None)
    ensures limit > 0 && |From(Listed(store, f), c)| > limit ==> |PageOf(store, f, c, limit).items| == limit
  {
  }

  // ---------- following the cursor ----------

  /** The pages read from one store after the other, until a page names no next cursor or the stores run out. */
  function Walk(stores: seq<seq<Record>>, f: Filter, c: Cursor, limit: nat): (pages: seq<Page>)
    ensures |pages| <= |stores|
  {
    if stores == [] then []
    else
      var p := PageOf(stores[0], f, c, limit);
      if p.next.None? then [p] else [p] + Walk(stores[1..], f, Beyond(p.next.value), limit)
  }

  predicate Ended(pages: seq<Page>) { pages != [] && pages[|pages| - 1].next.None? }

  function Items(pages: seq<Page>): seq<Record> { if pages == [] then [] else pages[0].items + Items(pages[1..]) }

  /** Identifiers strictly increase over the whole walk, so none comes twice. */
  lemma {:induction false} WalkAscends(stores: seq<seq<Record>>, f: Filter, c: Cursor, limit: nat)
    requires forall s :: s in stores ==> Distinct(s)
    ensures
      var items := Items(Walk(stores, f, c, limit));
      Ascending(items) && forall r :: r in items ==> Past(r.id, c) && Match(r, f)
    decreases |stores|
  {
    hide PageOf;
    if stores == [] {
    } else {
      PageExactly(stores[0], f, c, limit);
      var p := PageOf(stores[0], f, c, limit);
      if p.next.None? {
        assert Items([p]) == p.items;
      } else {
        WalkAscends(stores[1..], f, Beyond(p.next.value), limit);
        var rest := Walk(stores[1..], f, Beyond(p.next.value), limit);
        assert ([p] + rest)[1..] == rest;
        assert p.items[|p.items| - 1] in p.items;
      }
    }
  }

  ghost predicate Stays(stores: seq<seq<Record>>, f: Filter, id: nat) {
    forall n :: 0 <= n < |stores| ==> exists r :: r in stores[n] && r.id == id && Match(r, f)
  }

  /** An agent that matches at every read is returned by a walk that ends, whatever else is created or deleted. */
  lemma {:induction false} WalkFindsStayers(stores: seq<seq<Record>>, f: Filter, c: Cursor, limit: nat, id: nat)
    requires forall s :: s in stores ==> Distinct(s)
    requires Ended(Walk(stores, f, c, limit)) && Past(id, c)
    requires Stays(stores[..|Walk(stores, f, c, limit)|], f, id)
    ensures exists r :: r in Items(Walk(stores, f, c, limit)) && r.id == id
    decreases |stores|
  {
    hide PageOf;
    var pages := Walk(stores, f, c, limit);
    var p := PageOf(stores[0], f, c, limit);
    PageExactly(stores[0], f, c, limit);
    assert stores[..|pages|][0] == stores[0];
    var r :| r in stores[0] && r.id == id && Match(r, f);
    if OnPage(r, p, c) {
      assert r in Items(pages);
    } else {
      var rest := Walk(stores[1..], f, Beyond(p.next.value), limit);
      assert pages == [p] + rest && pages[1..] == rest;
      assert stores[..|pages|][1..] == stores[1..][..|rest|];
      forall n | 0 <= n < |rest| ensures exists r :: r in stores[1..][..|rest|][n] && r.id == id && Match(r, f) {
        assert stores[1..][..|rest|][n] == stores[..|pages|][n + 1];
      }
      WalkFindsStayers(stores[1..], f, Beyond(p.next.value), limit, id);
    }
  }

  /** ... and exactly once. */
  lemma StayersComeOnce(stores: seq<seq<Record>>, f: Filter, limit: nat, id: nat) returns (k: nat)
    requires forall s :: s in stores ==> Distinct(s)
    requires Ended(Walk(stores, f, Beginning, limit))
    requires Stays(stores[..|Walk(stores, f, Beginning, limit)|], f, id)
    ensures
      var items := Items(Walk(stores, f, Beginning, limit));
      k < |items| && forall m :: 0 <= m < |items| ==> (items[m].id == id <==> m == k)
  {
    WalkFindsStayers(stores, f, Beginning, limit, id);
    WalkAscends(stores, f, Beginning, limit);
    var items := Items(Walk(stores, f, Beginning, limit));
    var r :| r in items && r.id == id;
    k :| 0 <= k < |items| && items[k] == r;
  }

  // ---------- a store that does not change ----------

  function Copies(store: seq<Record>, n: nat): seq<seq<Record>> { seq(n, _ => store) }

  lemma FromTwice(s: seq<Record>, c: Cursor, limit: nat)
    requires Ascending(s) && limit > 0 && |From(s, c)| > limit
    ensures From(s, Beyond(From(s, c)[limit - 1].id)) == From(s, c)[limit..]
  {
    FromIs(s, c);
    hide From, Past;
    var rest := From(s, c);
    var k := |s| - |rest| + limit;
    assert rest[limit - 1] == s[k - 1];
    SplitAt(s, k);
    assert s[k..] == rest[limit..];
  }

  lemma SplitAt(s: seq<Record>, k: nat)
    requires Ascending(s) && 0 < k <= |s|
    ensures From(s, Beyond(s[k - 1].id)) == s[k..]
  {
    FromSplit(s, k, Beyond(s[k - 1].id));
  }

  lemma {:induction false} FromSplit(s: seq<Record>, k: nat, c: Cursor)
    requires Ascending(s) && k <= |s|
    requires forall i :: 0 <= i < k ==> !Past(s[i].id, c)
    requires forall i :: k <= i < |s| ==> Past(s[i].id, c)
    ensures From(s, c) == s[k..]
  {
    if k == 0 {
    } else {
      FromSplit(s[1..], k - 1, c);
    }
  }

  lemma WalkUnfolds(store: seq<Record>, f: Filter, c: Cursor, limit: nat, n: nat)
    requires n > 0
    ensures
      var p := PageOf(store, f, c, limit);
      Walk(Copies(store, n), f, c, limit) ==
      if p.next.None? then [p] else [p] + Walk(Copies(store, n - 1), f, Beyond(p.next.value), limit)
  {
    hide PageOf;
    assert Copies(store, n)[1..] == Copies(store, n - 1);
  }

  lemma ItemsPrepend(p: Page, pages: seq<Page>)
    ensures Items([p] + pages) == p.items + Items(pages)
  {
    assert ([p] + pages)[1..] == pages;
  }

  /** With as many reads as full pages need, the walk over an unchanging store ends, and its pages put together are the
      sorted listing. */
  lemma {:induction false} WalkIsListing(store: seq<Record>, f: Filter, c: Cursor, limit: nat, n: nat)
    requires Distinct(store) && n > 0 && n * Limit(limit) >= |From(Listed(store, f), c)|
    ensures
      var pages := Walk(Copies(store, n), f, c, limit);
      Ended(pages) && Items(pages) == From(Listed(store, f), c)
    decreases n
  {
    hide Listed, From, Limit, Walk, Copies, Items, Distinct;
    ListedExactly(store, f);
    WalkUnfolds(store, f, c, limit, n);
    var p := PageOf(store, f, c, limit);
    if p.next.None? {
      ItemsPrepend(p, []);
      NoItems();
      assert [p] + [] == [p];
    } else {
      FromTwice(Listed(store, f), c, Limit(limit));
      assert (n - 1) * Limit(limit) == n * Limit(limit) - Limit(limit);
      WalkIsListing(store, f, Beyond(p.next.value), limit, n - 1);
      ItemsPrepend(p, Walk(Copies(store, n - 1), f, Beyond(p.next.value), limit));
    }
  }

  lemma NoItems()
    ensures Items([]) == []
  {
  }

  /** A walk from the beginning is the whole listing. */
  lemma WalkFromBeginning(store: seq<Record>, f: Filter, limit: nat, n: nat)
    requires Distinct(store) && n > 0 && n * Limit(limit) >= |Listed(store, f)|
    ensures
      var pages := Walk(Copies(store, n), f, Beginning, limit);
      Ended(pages) && Items(pages) == Listed(store, f)
  {
    WalkIsListing(store, f, Beginning, limit, n);
  }

  // ---------- the operation ----------

  /** sort.Search for the first identifier beyond the cursor. */
  method Search(s: seq<Record>, c: Cursor) returns (index: nat)
    requires Ascending(s)
    ensures index <= |s| && s[index..] == From(s, c)
  {
    var lo, hi := 0, |s|;
    while lo < hi
      invariant 0 <= lo <= hi <= |s|
      invariant forall i :: 0 <= i < lo ==> !Past(s[i].id, c)
      invariant forall i :: hi <= i < |s| ==> Past(s[i].id, c)
    {
      var mid := (lo + hi) / 2;
      if Past(s[mid].id, c) {
        hi := mid;
      } else {
        lo := mid + 1;
      }
    }
    FromSplit(s, lo, c);
    index := lo;
  }

  method List(store: seq<Record>, f: Filter, cursor: Cursor, limit: nat) returns (r: Result<Page, Refusal>)
    requires Distinct(store)
    ensures r == if cursor.Garbled? then Err(InvalidCursor) else Ok(PageOf(store, f, cursor, limit))
  {
    var agents: seq<Record> := [];
    for i := 0 to |store|
      invariant agents == Selected(store[..i], f)
    {
      assert store[..i + 1][..i] == store[..i];
      if !Match(store[i], f) {
        continue;
      }
      agents := agents + [store[i]];
    }
    assert store[..|store|] == store;
    SelectedDistinct(store, f);
    ByIdIs(agents);
    agents := ById(agents);
    if cursor != Beginning {
      if cursor.Garbled? {
        return Err(InvalidCursor);
      }
      var index := Search(agents, cursor);
      agents := agents[index..];
    }
    assert agents == From(Listed(store, f), cursor);
    var most := if limit == 0 then 50 else limit;
    var page := Page(agents, None);
    if |page.items| > most {
      page := Page(page.items[..most], Some(page.items[most - 1].id));
    }
    return Ok(page);
  }
}
