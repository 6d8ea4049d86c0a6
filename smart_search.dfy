/**
 * The company search box: the local alias table and its reverse index, the local fuzzy
 * search, the merge with the remote lookup's suggestions, and reading a ticker back out
 * of a chosen "TICKER - Name" suggestion.
 */
module SmartSearch {
  import opened Wrappers
  import opened Strings

  // ---------------------------------------------------------------- the alias table

  /** One entry of the alias table: lower-case search key, ticker, full company name. */
  datatype Company = Company(key: string, ticker: string, fullName: string)

  /** The table is a dictionary: no key occurs twice. */
  predicate IsDict(table: seq<Company>)
  {
    forall i, j :: 0 <= i < j < |table| ==> table[i].key != table[j].key
  }

  function Keys(table: seq<Company>): set<string>
  {
    set c | c in table :: c.key
  }

  /** `table[key]`. */
  function Lookup(table: seq<Company>, key: string): (c: Company)
    requires key in Keys(table)
    ensures c in table && c.key == key
  {
    if table[0].key == key then table[0]
    else
      assert key in Keys(table[1..]) by {
        var d :| d in table && d.key == key;
        assert d != table[0];
      }
      Lookup(table[1..], key)
  }

  /**
   * The reverse index `TICKER_TO_NAME`, entry by entry: each ticker gets the full name of
   * the first entry that carries it.
   */
  function TickerIndex(table: seq<Company>): map<string, string>
  {
    if table == [] then map[]
    else
      var index := TickerIndex(table[..|table| - 1]);
      var c := table[|table| - 1];
      if c.ticker in index then index else index[c.ticker := c.fullName]
  }

  /** Entry `k` is the first one carrying its ticker. */
  predicate FirstWithTicker(table: seq<Company>, k: int)
    requires 0 <= k < |table|
  {
    forall j :: 0 <= j < k ==> table[j].ticker != table[k].ticker
  }

  function Tickers(table: seq<Company>): set<string>
  {
    set c | c in table :: c.ticker
  }

  lemma TickersOfFront(table: seq<Company>)
    requires table != []
    ensures Tickers(table) == Tickers(table[..|table| - 1]) + {table[|table| - 1].ticker}
  {
    assert table == table[..|table| - 1] + [table[|table| - 1]];
  }

  /** The index holds exactly the table's tickers. */
  lemma {:induction false} TickerIndexKeys(table: seq<Company>)
    ensures TickerIndex(table).Keys == Tickers(table)
  {
    if table != [] {
      TickerIndexKeys(table[..|table| - 1]);
      TickersOfFront(table);
    }
  }

  /** The index maps each ticker to the full name of the first entry carrying it. */
  lemma {:induction false} TickerIndexFirst(table: seq<Company>, k: int)
    requires 0 <= k < |table| && FirstWithTicker(table, k)
    ensures table[k].ticker in TickerIndex(table) && TickerIndex(table)[table[k].ticker] == table[k].fullName
  {
    var n := |table| - 1;
    var front := table[..n];
    TickerIndexKeys(front);
    if k < n {
      assert front[k] == table[k];
      assert FirstWithTicker(front, k) by {
        forall j | 0 <= j < k ensures front[j].ticker != front[k].ticker {
          assert front[j] == table[j];
        }
      }
      TickerIndexFirst(front, k);
    } else {
      assert table[n].ticker !in Tickers(front) by {
        forall c | c in front ensures c.ticker != table[n].ticker {
          var j :| 0 <= j < n && front[j] == c;
          assert table[j] == c;
        }
      }
    }
  }

  /** The module-level loop that fills `TICKER_TO_NAME`. */
  method BuildTickerIndex(table: seq<Company>) returns (index: map<string, string>)
    ensures index == TickerIndex(table)
  {
    index := map[];
    var i := 0;
    while i < |table|
      invariant 0 <= i <= |table|
      invariant index == TickerIndex(table[..i])
    {
      assert table[..i + 1][..i] == table[..i];
      var c := table[i];
      if c.ticker !in index {
        index := index[c.ticker := c.fullName];
      }
      i := i + 1;
    }
    assert table[..|table|] == table;
  }

  // ---------------------------------------------------------------- local fuzzy search

  /** A suggestion with its match score; it is displayed as "TICKER - Full name". */
  datatype Hit = Hit(ticker: string, fullName: string, score: int)

  /** What separates the ticker from the name in a displayed suggestion. */
  const Separator := " - "

  function Label(h: Hit): string
  {
    h.ticker + Separator + h.fullName
  }

  /** One (choice, score) pair returned by the fuzzy matcher. */
  datatype Match = Match(choice: string, score: int)

  function TickerSet(hs: seq<Hit>): set<string>
  {
    set h | h in hs :: h.ticker
  }

  /** No ticker appears twice. */
  predicate UniqueTickers(hs: seq<Hit>)
  {
    forall i, j :: 0 <= i < j < |hs| ==> hs[i].ticker != hs[j].ticker
  }

  /** Only matches scoring above 60 are kept. */
  const Cutoff := 60

  /** The name loop's step: a good name match adds its company unless the ticker was seen. */
  function AddName(hs: seq<Hit>, table: seq<Company>, m: Match): seq<Hit>
    requires m.choice in Keys(table)
  {
    if m.score > Cutoff then
      var c := Lookup(table, m.choice);
      if c.ticker in TickerSet(hs) then hs else hs + [Hit(c.ticker, c.fullName, m.score)]
    else hs
  }

  /** The ticker loop's step: a good ticker match adds its ticker unless it was seen. */
  function AddTicker(hs: seq<Hit>, index: map<string, string>, m: Match): seq<Hit>
    requires m.choice in index
  {
    if m.score > Cutoff && m.choice !in TickerSet(hs) then hs + [Hit(m.choice, index[m.choice], m.score)] else hs
  }

  /** The hits collected from the fuzzy name matches, in order. */
  function NameHits(table: seq<Company>, ms: seq<Match>): seq<Hit>
    requires forall m :: m in ms ==> m.choice in Keys(table)
  {
    if ms == [] then [] else AddName(NameHits(table, ms[..|ms| - 1]), table, ms[|ms| - 1])
  }

  /** The hits collected from the fuzzy ticker matches, appended after `start`. */
  function TickerHits(index: map<string, string>, ms: seq<Match>, start: seq<Hit>): seq<Hit>
    requires forall m :: m in ms ==> m.choice in index
  {
    if ms == [] then start else AddTicker(TickerHits(index, ms[..|ms| - 1], start), index, ms[|ms| - 1])
  }

  predicate GoodScores(hs: seq<Hit>)
  {
    forall i :: 0 <= i < |hs| ==> hs[i].score > Cutoff
  }

  lemma {:induction false} NameHitsValid(table: seq<Company>, ms: seq<Match>)
    requires forall m :: m in ms ==> m.choice in Keys(table)
    ensures UniqueTickers(NameHits(table, ms)) && GoodScores(NameHits(table, ms))
  {
    if ms != [] {
      NameHitsValid(table, ms[..|ms| - 1]);
    }
  }

  lemma {:induction false} TickerHitsValid(index: map<string, string>, ms: seq<Match>, start: seq<Hit>)
    requires forall m :: m in ms ==> m.choice in index
    requires UniqueTickers(start) && GoodScores(start)
    ensures UniqueTickers(TickerHits(index, ms, start)) && GoodScores(TickerHits(index, ms, start))
    ensures start <= TickerHits(index, ms, start)
  {
    if ms != [] {
      TickerHitsValid(index, ms[..|ms| - 1], start);
    }
  }

  /** The tickers of the name matches scoring above the cut-off. */
  function GoodNameTickers(table: seq<Company>, ms: seq<Match>): set<string>
    requires forall m :: m in ms ==> m.choice in Keys(table)
  {
    set m | m in ms && m.score > Cutoff :: Lookup(table, m.choice).ticker
  }

  /** The tickers of the ticker matches scoring above the cut-off. */
  function GoodTickers(ms: seq<Match>): set<string>
  {
    set m | m in ms && m.score > Cutoff :: m.choice
  }

  lemma TickerSetAppend(hs: seq<Hit>, h: Hit)
    ensures TickerSet(hs + [h]) == TickerSet(hs) + {h.ticker}
  {
    assert forall x :: x in hs + [h] <==> x in hs || x == h;
  }

  /** No good name match is lost: every ticker of one is kept, and only those. */
  lemma {:induction false} NameHitsComplete(table: seq<Company>, ms: seq<Match>)
    requires forall m :: m in ms ==> m.choice in Keys(table)
    ensures TickerSet(NameHits(table, ms)) == GoodNameTickers(table, ms)
  {
    if ms != [] {
      var front, m := ms[..|ms| - 1], ms[|ms| - 1];
      assert forall x :: x in ms <==> x in front || x == m by { assert ms == front + [m]; }
      NameHitsComplete(table, front);
      var hs := NameHits(table, front);
      if m.score > Cutoff {
        var c := Lookup(table, m.choice);
        if c.ticker !in TickerSet(hs) {
          TickerSetAppend(hs, Hit(c.ticker, c.fullName, m.score));
        }
        assert GoodNameTickers(table, ms) == GoodNameTickers(table, front) + {c.ticker};
      } else {
        assert GoodNameTickers(table, ms) == GoodNameTickers(table, front);
      }
    }
  }

  /** No good ticker match is lost: the hits' tickers are those of `start` and of the good matches. */
  lemma {:induction false} TickerHitsComplete(index: map<string, string>, ms: seq<Match>, start: seq<Hit>)
    requires forall m :: m in ms ==> m.choice in index
    ensures TickerSet(TickerHits(index, ms, start)) == TickerSet(start) + GoodTickers(ms)
  {
    if ms != [] {
      var front, m := ms[..|ms| - 1], ms[|ms| - 1];
      assert forall x :: x in ms <==> x in front || x == m by { assert ms == front + [m]; }
      TickerHitsComplete(index, front, start);
      var hs := TickerHits(index, front, start);
      if m.score > Cutoff {
        if m.choice !in TickerSet(hs) {
          TickerSetAppend(hs, Hit(m.choice, index[m.choice], m.score));
        }
        assert GoodTickers(ms) == GoodTickers(front) + {m.choice};
      } else {
        assert GoodTickers(ms) == GoodTickers(front);
      }
    }
  }

  // ---------------------------------------------------------------- stable sort by score

  /** Places `x` before the first entry scoring no more than it: earlier entries win ties. */
  function Insert(x: Hit, s: seq<Hit>): seq<Hit>
  {
    if s == [] || s[0].score <= x.score then [x] + s else [s[0]] + Insert(x, s[1..])
  }

  /** `results.sort(key=score, reverse=True)`: descending by score, stable. */
  function SortByScore(s: seq<Hit>): seq<Hit>
  {
    if s == [] then [] else Insert(s[0], SortByScore(s[1..]))
  }

  predicate Descending(s: seq<Hit>)
  {
    forall i, j :: 0 <= i < j < |s| ==> s[i].score >= s[j].score
  }

  /** The entries with score `v`, in order. */
  function WithScore(s: seq<Hit>, v: int): seq<Hit>
  {
    if s == [] then [] else (if s[0].score == v then [s[0]] else []) + WithScore(s[1..], v)
  }

  lemma {:induction false} InsertPermutes(x: Hit, s: seq<Hit>)
    ensures multiset(Insert(x, s)) == multiset(s) + multiset{x}
    decreases |s|
  {
    if s != [] && s[0].score > x.score {
      InsertPermutes(x, s[1..]);
      assert s == [s[0]] + s[1..];
    }
  }

  lemma {:induction false} InsertDescending(x: Hit, s: seq<Hit>)
    requires Descending(s)
    ensures Descending(Insert(x, s))
    decreases |s|
  {
    var r := Insert(x, s);
    if s != [] && s[0].score > x.score {
      InsertDescending(x, s[1..]);
      InsertPermutes(x, s[1..]);
      forall j | 0 < j < |r| ensures r[0].score >= r[j].score {
        var y := r[j];
        assert y in Insert(x, s[1..]);
        assert y in multiset(Insert(x, s[1..]));
        assert y == x || y in s[1..];
      }
    }
  }

  /** Inserting keeps the entries of each score in order, with `x` first among its own. */
  lemma {:induction false} InsertWithScore(x: Hit, s: seq<Hit>, v: int)
    ensures WithScore(Insert(x, s), v) == WithScore([x], v) + WithScore(s, v)
    decreases |s|
  {
    if s != [] && s[0].score > x.score {
      InsertWithScore(x, s[1..], v);
      assert s == [s[0]] + s[1..];
      assert Insert(x, s)[1..] == Insert(x, s[1..]);
    } else {
      assert ([x] + s)[1..] == s;
    }
  }

  lemma {:induction false} InsertUnique(x: Hit, s: seq<Hit>)
    requires UniqueTickers(s) && forall y :: y in s ==> y.ticker != x.ticker
    ensures UniqueTickers(Insert(x, s))
    decreases |s|
  {
    var r := Insert(x, s);
    if s != [] && s[0].score > x.score {
      InsertUnique(x, s[1..]);
      InsertPermutes(x, s[1..]);
      forall j | 0 < j < |r| ensures r[0].ticker != r[j].ticker {
        var y := r[j];
        assert y in Insert(x, s[1..]);
        assert y in multiset(Insert(x, s[1..]));
        if y != x {
          var k :| 0 <= k < |s[1..]| && s[1..][k] == y;
          assert s[k + 1] == y;
        }
      }
    } else {
      forall i, j | 0 <= i < j < |r| ensures r[i].ticker != r[j].ticker {
        assert r[j] == s[j - 1];
        if i > 0 {
          assert r[i] == s[i - 1];
        }
      }
    }
  }

  /** The sort is a permutation. */
  lemma {:induction false} SortPermutes(s: seq<Hit>)
    ensures multiset(SortByScore(s)) == multiset(s)
  {
    if s != [] {
      SortPermutes(s[1..]);
      InsertPermutes(s[0], SortByScore(s[1..]));
      assert s == [s[0]] + s[1..];
    }
  }

  /** The sort orders by descending score. */
  lemma {:induction false} SortDescending(s: seq<Hit>)
    ensures Descending(SortByScore(s))
  {
    if s != [] {
      SortDescending(s[1..]);
      InsertDescending(s[0], SortByScore(s[1..]));
    }
  }

  /** The sort is stable: the entries of each score keep their original order. */
  lemma {:induction false} SortStable(s: seq<Hit>, v: int)
    ensures WithScore(SortByScore(s), v) == WithScore(s, v)
  {
    if s != [] {
      SortStable(s[1..], v);
      InsertWithScore(s[0], SortByScore(s[1..]), v);
    }
  }

  /** Sorting keeps every score above the cutoff. */
  lemma SortKeepsScores(s: seq<Hit>)
    requires GoodScores(s)
    ensures GoodScores(SortByScore(s))
  {
    SortPermutes(s);
    forall i | 0 <= i < |SortByScore(s)| ensures SortByScore(s)[i].score > Cutoff {
      assert SortByScore(s)[i] in multiset(s);
    }
  }

  /** Sorting keeps tickers unique. */
  lemma {:induction false} SortKeepsTickers(s: seq<Hit>)
    requires UniqueTickers(s)
    ensures UniqueTickers(SortByScore(s))
  {
    if s != [] {
      var t := SortByScore(s[1..]);
      assert UniqueTickers(s[1..]);
      SortKeepsTickers(s[1..]);
      SortPermutes(s[1..]);
      forall y | y in t ensures y.ticker != s[0].ticker {
        assert y in multiset(s[1..]);
        var k :| 0 <= k < |s[1..]| && s[1..][k] == y;
        assert s[k + 1] == y;
      }
      InsertUnique(s[0], t);
    }
  }

  // ---------------------------------------------------------------- search_local_cache

  /** The inputs the local search needs besides the query: the table, its index, the matcher's answers. */
  predicate LocalInputs(table: seq<Company>, index: map<string, string>, nameMatches: seq<Match>, tickerMatches: seq<Match>)
  {
    && IsDict(table)
    && index == TickerIndex(table)
    && (forall m :: m in nameMatches ==> m.choice in Keys(table))
    && (forall m :: m in tickerMatches ==> m.choice in index)
  }

  /** The fuzzy hits, name matches first, before sorting. */
  function Collected(table: seq<Company>, index: map<string, string>, nameMatches: seq<Match>, tickerMatches: seq<Match>): seq<Hit>
    requires LocalInputs(table, index, nameMatches, tickerMatches)
  {
    TickerHits(index, tickerMatches, NameHits(table, nameMatches))
  }

  /**
   * `search_local_cache(query, limit)`, given the table, its index and what the fuzzy
   * matcher returns for the names (`nameMatches`) and for the tickers (`tickerMatches`).
   */
  function LocalResults(table: seq<Company>, index: map<string, string>, query: string, limit: nat,
                        nameMatches: seq<Match>, tickerMatches: seq<Match>): seq<Hit>
    requires LocalInputs(table, index, nameMatches, tickerMatches)
  {
    var upper := Upper(query);
    var key := Lower(Strip(query));
    if upper in index then [Hit(upper, index[upper], 100)]
    else if key in Keys(table) then
      var c := Lookup(table, key);
      [Hit(c.ticker, c.fullName, 100)]
    else
      var sorted := SortByScore(Collected(table, index, nameMatches, tickerMatches));
      sorted[..Min(limit, |sorted|)]
  }

  /**
   * `results.sort(...)` then `results[:limit]` over sound hits: the kept hits stay sound and
   * sorted, number `min(limit, n)`, and when all n fit they carry every ticker.
   */
  lemma TopHits(c: seq<Hit>, limit: nat)
    requires GoodScores(c) && UniqueTickers(c)
    ensures var sorted := SortByScore(c);
            var r := sorted[..Min(limit, |sorted|)];
            && GoodScores(r) && UniqueTickers(r) && Descending(r)
            && |r| == Min(limit, |c|)
            && multiset(sorted) == multiset(c)
            && (forall v :: WithScore(sorted, v) == WithScore(c, v))
            && (|c| <= limit ==> TickerSet(r) == TickerSet(c))
  {
    var sorted := SortByScore(c);
    SortDescending(c);
    forall v ensures WithScore(sorted, v) == WithScore(c, v) {
      SortStable(c, v);
    }
    SortKeepsScores(c);
    SortKeepsTickers(c);
    SortPermutes(c);
    assert |sorted| == |multiset(sorted)| == |multiset(c)| == |c|;
    if |c| <= limit {
      assert sorted[..Min(limit, |sorted|)] == sorted;
      forall h ensures h in sorted <==> h in c {
        assert h in sorted <==> h in multiset(sorted);
        assert h in c <==> h in multiset(c);
      }
    }
  }

  /**
   * An exact ticker (any case) wins over an exact name, and either gives one hit scoring
   * 100. Otherwise the results keep only scores above 60, never repeat a ticker, are sorted
   * by descending score, hold at most `limit` hits, and are the leading part of the
   * collected hits sorted stably: among equal scores, name matches stay before ticker
   * matches and each keeps the matcher's order.
   */
  lemma LocalResultsProperties(table: seq<Company>, index: map<string, string>, query: string, limit: nat,
                               nameMatches: seq<Match>, tickerMatches: seq<Match>)
    requires LocalInputs(table, index, nameMatches, tickerMatches)
    ensures var r := LocalResults(table, index, query, limit, nameMatches, tickerMatches);
            && (Upper(query) in index ==> r == [Hit(Upper(query), index[Upper(query)], 100)])
            && (Upper(query) !in index && Lower(Strip(query)) in Keys(table) ==>
                  r == [Hit(Lookup(table, Lower(Strip(query))).ticker, Lookup(table, Lower(Strip(query))).fullName, 100)])
    ensures var r := LocalResults(table, index, query, limit, nameMatches, tickerMatches);
            var sorted := SortByScore(Collected(table, index, nameMatches, tickerMatches));
            Upper(query) !in index && Lower(Strip(query)) !in Keys(table) ==>
              && GoodScores(r) && UniqueTickers(r) && Descending(r)
              && r <= sorted && |r| == Min(limit, |sorted|)
              && multiset(sorted) == multiset(Collected(table, index, nameMatches, tickerMatches))
              && (forall v :: WithScore(sorted, v) == WithScore(Collected(table, index, nameMatches, tickerMatches), v))
  {
    var collected := Collected(table, index, nameMatches, tickerMatches);
    NameHitsValid(table, nameMatches);
    TickerHitsValid(index, tickerMatches, NameHits(table, nameMatches));
    TopHits(collected, limit);
  }

  /** The collected fuzzy hits carry exactly the tickers of the good name and ticker matches. */
  lemma CollectedTickers(table: seq<Company>, index: map<string, string>, nameMatches: seq<Match>, tickerMatches: seq<Match>)
    requires LocalInputs(table, index, nameMatches, tickerMatches)
    ensures TickerSet(Collected(table, index, nameMatches, tickerMatches))
            == GoodNameTickers(table, nameMatches) + GoodTickers(tickerMatches)
  {
    NameHitsComplete(table, nameMatches);
    TickerHitsComplete(index, tickerMatches, NameHits(table, nameMatches));
  }

  /**
   * When the fuzzy hits fit within `limit`, the results carry the ticker of every good name
   * and ticker match, and no other.
   */
  lemma LocalResultsComplete(table: seq<Company>, index: map<string, string>, query: string, limit: nat,
                             nameMatches: seq<Match>, tickerMatches: seq<Match>)
    requires LocalInputs(table, index, nameMatches, tickerMatches)
    requires Upper(query) !in index && Lower(Strip(query)) !in Keys(table)
    requires |Collected(table, index, nameMatches, tickerMatches)| <= limit
    ensures TickerSet(LocalResults(table, index, query, limit, nameMatches, tickerMatches))
            == GoodNameTickers(table, nameMatches) + GoodTickers(tickerMatches)
  {
    var collected := Collected(table, index, nameMatches, tickerMatches);
    NameHitsValid(table, nameMatches);
    TickerHitsValid(index, tickerMatches, NameHits(table, nameMatches));
    TopHits(collected, limit);
    CollectedTickers(table, index, nameMatches, tickerMatches);
  }

  /** The name loop of `search_local_cache`, with its `seen_tickers` set. */
  method CollectNames(table: seq<Company>, nameMatches: seq<Match>) returns (results: seq<Hit>, seen: set<string>)
    requires forall m :: m in nameMatches ==> m.choice in Keys(table)
    ensures results == NameHits(table, nameMatches) && seen == TickerSet(results)
  {
    results, seen := [], {};
    var i := 0;
    while i < |nameMatches|
      invariant 0 <= i <= |nameMatches|
      invariant results == NameHits(table, nameMatches[..i]) && seen == TickerSet(results)
    {
      assert nameMatches[..i + 1][..i] == nameMatches[..i];
      var m := nameMatches[i];
      if m.score > Cutoff {
        var c := Lookup(table, m.choice);
        if c.ticker !in seen {
          results := results + [Hit(c.ticker, c.fullName, m.score)];
          seen := seen + {c.ticker};
        }
      }
      i := i + 1;
    }
    assert nameMatches[..|nameMatches|] == nameMatches;
  }

  /** The ticker loop of `search_local_cache`, continuing from the name loop's results. */
  method CollectTickers(index: map<string, string>, tickerMatches: seq<Match>, start: seq<Hit>, seen0: set<string>)
    returns (results: seq<Hit>, seen: set<string>)
    requires forall m :: m in tickerMatches ==> m.choice in index
    requires seen0 == TickerSet(start)
    ensures results == TickerHits(index, tickerMatches, start) && seen == TickerSet(results)
  {
    results, seen := start, seen0;
    var i := 0;
    while i < |tickerMatches|
      invariant 0 <= i <= |tickerMatches|
      invariant results == TickerHits(index, tickerMatches[..i], start) && seen == TickerSet(results)
    {
      assert tickerMatches[..i + 1][..i] == tickerMatches[..i];
      var m := tickerMatches[i];
      if m.score > Cutoff && m.choice !in seen {
        results := results + [Hit(m.choice, index[m.choice], m.score)];
        seen := seen + {m.choice};
      }
      i := i + 1;
    }
    assert tickerMatches[..|tickerMatches|] == tickerMatches;
  }

  /** `search_local_cache`: exact ticker, exact name, then the two fuzzy loops, the sort and the cut. */
  method SearchLocalCache(table: seq<Company>, index: map<string, string>, query: string, limit: nat,
                          nameMatches: seq<Match>, tickerMatches: seq<Match>) returns (r: seq<Hit>)
    requires LocalInputs(table, index, nameMatches, tickerMatches)
    ensures r == LocalResults(table, index, query, limit, nameMatches, tickerMatches)
  {
    var queryLower := Lower(Strip(query));
    if Upper(query) in index {
      var ticker := Upper(query);
      return [Hit(ticker, index[ticker], 100)];
    }
    if queryLower in Keys(table) {
      var c := Lookup(table, queryLower);
      return [Hit(c.ticker, c.fullName, 100)];
    }
    var results, seen := CollectNames(table, nameMatches);
    results, seen := CollectTickers(index, tickerMatches, results, seen);
    results := SortByScore(results);
    r := results[..Min(limit, |results|)];
  }

  // ---------------------------------------------------------------- smart_search

  /** The suggestions offered for an empty query. */
  const DefaultSuggestions: seq<string> :=
    ["AAPL - Apple Inc.", "GOOGL - Alphabet Inc. (Google)", "MSFT - Microsoft Corporation", "NVDA - NVIDIA Corporation",
     "TSLA - Tesla Inc.", "AMZN - Amazon.com Inc.", "META - Meta Platforms Inc.", "NFLX - Netflix Inc."]

  /** The single suggestion returned when nothing matches. */
  function NotFoundMessage(query: string): string
  {
    Cross + " Aucune entreprise trouv\U{00E9}e pour '" + query + "'"
  }

  /** `s.split(" - ")[0]`: the ticker part of a suggestion. */
  function TickerPart(s: string): string
  {
    Before(s, Separator)
  }

  function Parts(xs: seq<string>): set<string>
  {
    set x | x in xs :: TickerPart(x)
  }

  /** Keeps each suggestion whose ticker part has not been seen yet, in order. */
  function Dedup(xs: seq<string>): seq<string>
  {
    if xs == [] then []
    else
      var d := Dedup(xs[..|xs| - 1]);
      var x := xs[|xs| - 1];
      if TickerPart(x) in Parts(d) then d else d + [x]
  }

  /**
   * The merge keeps each ticker once, keeps only given suggestions, keeps every ticker
   * present, and processes in order, so the local suggestions' survivors come first.
   */
  lemma {:induction false} DedupProperties(xs: seq<string>)
    ensures forall i, j :: 0 <= i < j < |Dedup(xs)| ==> TickerPart(Dedup(xs)[i]) != TickerPart(Dedup(xs)[j])
    ensures forall x :: x in Dedup(xs) ==> x in xs
    ensures Parts(Dedup(xs)) == Parts(xs)
  {
    if xs != [] {
      var n := |xs| - 1;
      DedupProperties(xs[..n]);
      assert xs == xs[..n] + [xs[n]];
      assert Parts(xs) == Parts(xs[..n]) + {TickerPart(xs[n])};
      var d := Dedup(xs[..n]);
      if TickerPart(xs[n]) !in Parts(d) {
        assert Parts(d + [xs[n]]) == Parts(d) + {TickerPart(xs[n])};
        forall i, j | 0 <= i < j < |d + [xs[n]]| ensures TickerPart((d + [xs[n]])[i]) != TickerPart((d + [xs[n]])[j]) {
          if j == |d| {
            assert (d + [xs[n]])[i] in d;
          }
        }
      }
    }
  }

  /** Merging `a` then `b` first merges `a` completely: its result is a prefix. */
  lemma {:induction false} DedupPrefix(a: seq<string>, b: seq<string>)
    ensures Dedup(a) <= Dedup(a + b)
    decreases |b|
  {
    if b == [] {
      assert a + b == a;
    } else {
      var n := |b| - 1;
      DedupPrefix(a, b[..n]);
      assert (a + b)[..|a + b| - 1] == a + b[..n];
    }
  }

  function Labels(hs: seq<Hit>): (ls: seq<string>)
    ensures |ls| == |hs|
  {
    seq(|hs|, i requires 0 <= i < |hs| => Label(hs[i]))
  }

  /**
   * `smart_search(query, limit)` given the local search inputs and the suggestions the
   * remote lookup returns (`remote`).
   */
  function Suggestions(table: seq<Company>, index: map<string, string>, query: string, limit: nat,
                       nameMatches: seq<Match>, tickerMatches: seq<Match>, remote: seq<string>): seq<string>
    requires LocalInputs(table, index, nameMatches, tickerMatches)
  {
    if query == "" then DefaultSuggestions
    else
      var local := LocalResults(table, index, query, limit, nameMatches, tickerMatches);
      if local != [] && local[0].score > 85 then Labels(local)
      else
        var combined := Dedup(Labels(local) + remote);
        if combined == [] then (if local != [] then Labels(local) else [NotFoundMessage(query)])
        else combined[..Min(limit, |combined|)]
  }

  /**
   * An empty query gives the eight defaults whatever the limit. A confident local match
   * (top score above 85) returns the local suggestions without the remote ones. Otherwise
   * the answer is the merge capped at `limit`, local suggestions first, each ticker once,
   * or the single not-found message when both sources are empty.
   */
  lemma SuggestionsProperties(table: seq<Company>, index: map<string, string>, query: string, limit: nat,
                              nameMatches: seq<Match>, tickerMatches: seq<Match>, remote: seq<string>)
    requires LocalInputs(table, index, nameMatches, tickerMatches)
    ensures query == "" ==> Suggestions(table, index, query, limit, nameMatches, tickerMatches, remote) == DefaultSuggestions
    ensures var local := LocalResults(table, index, query, limit, nameMatches, tickerMatches);
            var r := Suggestions(table, index, query, limit, nameMatches, tickerMatches, remote);
            query != "" && local != [] && local[0].score > 85 ==> r == Labels(local)
    ensures var local := LocalResults(table, index, query, limit, nameMatches, tickerMatches);
            var r := Suggestions(table, index, query, limit, nameMatches, tickerMatches, remote);
            var merged := Dedup(Labels(local) + remote);
            query != "" && !(local != [] && local[0].score > 85) ==>
              && (merged == [] <==> local == [] && remote == [])
              && (merged == [] ==> r == [NotFoundMessage(query)])
              && (merged != [] ==> r == merged[..Min(limit, |merged|)] && |r| <= limit)
              && Dedup(Labels(local)) <= merged
              && (forall i, j :: 0 <= i < j < |merged| ==> TickerPart(merged[i]) != TickerPart(merged[j]))
              && (forall x :: x in merged ==> x in Labels(local) + remote)
  {
    var local := LocalResults(table, index, query, limit, nameMatches, tickerMatches);
    DedupProperties(Labels(local) + remote);
    DedupPrefix(Labels(local), remote);
    if Labels(local) + remote != [] {
      var x := (Labels(local) + remote)[0];
      assert TickerPart(x) in Parts(Labels(local) + remote);
    }
  }

  /** One step of the merge loops: the next suggestion is kept unless its ticker was seen. */
  lemma DedupStep(xs: seq<string>, i: int)
    requires 0 <= i < |xs|
    ensures Dedup(xs[..i + 1]) == if TickerPart(xs[i]) in Parts(Dedup(xs[..i])) then Dedup(xs[..i]) else Dedup(xs[..i]) + [xs[i]]
    ensures Parts(Dedup(xs[..i]) + [xs[i]]) == Parts(Dedup(xs[..i])) + {TickerPart(xs[i])}
  {
    assert xs[..i + 1][..i] == xs[..i];
    var d := Dedup(xs[..i]);
    assert forall y :: y in d + [xs[i]] <==> y in d || y == xs[i];
  }

  /**
   * One merge loop over `all[lo..hi]`: each suggestion is kept unless its ticker was seen,
   * and `seen` grows with the kept tickers.
   */
  method KeepUnseen(all: seq<string>, lo: int, hi: int, combined0: seq<string>, seen0: set<string>)
    returns (combined: seq<string>, seen: set<string>)
    requires 0 <= lo <= hi <= |all| && combined0 == Dedup(all[..lo]) && seen0 == Parts(combined0)
    ensures combined == Dedup(all[..hi]) && seen == Parts(combined)
  {
    combined, seen := combined0, seen0;
    var k := lo;
    while k < hi
      invariant lo <= k <= hi
      invariant combined == Dedup(all[..k]) && seen == Parts(combined)
    {
      var result := all[k];
      DedupStep(all, k);
      var ticker := TickerPart(result);
      if ticker !in seen {
        combined := combined + [result];
        seen := seen + {ticker};
      }
      k := k + 1;
    }
  }

  /**
   * The merge of `smart_search`: a loop over the local suggestions, then the same loop over
   * the remote ones, sharing `combined` and `seen`.
   */
  method Merge(local: seq<Hit>, remote: seq<string>) returns (combined: seq<string>)
    ensures combined == Dedup(Labels(local) + remote)
  {
    var all := Labels(local) + remote;
    var seen;
    combined, seen := KeepUnseen(all, 0, |local|, [], {});
    combined, seen := KeepUnseen(all, |local|, |all|, combined, seen);
    assert all[..|all|] == all;
  }

  /** `smart_search`. */
  method Search(table: seq<Company>, index: map<string, string>, query: string, limit: nat,
                nameMatches: seq<Match>, tickerMatches: seq<Match>, remote: seq<string>) returns (r: seq<string>)
    requires LocalInputs(table, index, nameMatches, tickerMatches)
    ensures r == Suggestions(table, index, query, limit, nameMatches, tickerMatches, remote)
  {
    if query == "" {
      return DefaultSuggestions;
    }
    var local := SearchLocalCache(table, index, query, limit, nameMatches, tickerMatches);
    if local != [] && local[0].score > 85 {
      return Labels(local);
    }
    var combined := Merge(local, remote);
    if combined == [] {
      var permissive := SearchLocalCache(table, index, query, limit, nameMatches, tickerMatches);
      if permissive != [] {
        return Labels(permissive);
      }
      return [NotFoundMessage(query)];
    }
    r := combined[..Min(limit, |combined|)];
  }

  // ---------------------------------------------------------------- extract_ticker

  const Cross := "\U{274C}"

  /** `extract_ticker`: the ticker of a chosen suggestion, or "" for nothing or the not-found message. */
  function ExtractTicker(selection: string): string
  {
    if selection == "" then ""
    else if Contains(selection, Cross) || Contains(selection, "Aucune") then ""
    else if !Contains(selection, Separator) then Upper(Strip(selection))
    else Strip(Before(selection, Separator))
  }

  /** A suggestion holding " - " and neither marker reads back as its stripped head. */
  lemma ExtractTickerHead(s: string)
    requires Contains(s, Separator) && !Contains(s, Cross) && !Contains(s, "Aucune")
    ensures ExtractTicker(s) == Strip(Before(s, Separator))
  {
  }

  /** The not-found message reads back as no ticker. */
  lemma NotFoundMessageHasNoTicker(query: string)
    ensures ExtractTicker(NotFoundMessage(query)) == ""
  {
    var rest := " Aucune entreprise trouv\U{00E9}e pour '" + query + "'";
    assert NotFoundMessage(query) == Cross + rest;
    assert (Cross + rest)[0..1] == Cross;
    assert OccursAt(NotFoundMessage(query), Cross, 0);
  }

  /** No " - " starts inside the ticker of "ticker - name" under the round trip's conditions. */
  lemma NoEarlySeparator(t: string, name: string)
    requires !Contains(t, Separator) && !(|t| >= 2 && t[|t| - 2..] == " -")
    ensures forall k :: 0 <= k < |t| ==> !OccursAt(t + Separator + name, Separator, k)
  {
    var s := t + Separator + name;
    forall k | 0 <= k < |t| ensures !OccursAt(s, Separator, k) {
      if k + 3 <= |t| {
        assert s[k..k + 3] == t[k..k + 3];
        assert !OccursAt(t, Separator, k);
      } else if k == |t| - 1 {
        assert s[k + 1] == ' ';
        assert Separator[1] == '-';
      } else {
        assert k == |t| - 2;
        assert s[k] == t[k] && s[k + 1] == t[k + 1] && s[k + 2] == ' ';
        assert t[|t| - 2..] == [t[k], t[k + 1]];
      }
    }
  }

  /** The head of a label before its first " - " is the ticker, when no " - " starts inside it. */
  lemma LabelHead(h: Hit)
    requires !Contains(h.ticker, Separator) && !(|h.ticker| >= 2 && h.ticker[|h.ticker| - 2..] == " -")
    ensures Contains(Label(h), Separator) && Before(Label(h), Separator) == h.ticker
  {
    var t, s := h.ticker, Label(h);
    assert OccursAt(s, Separator, |t|) by {
      assert s[|t|..|t| + 3] == Separator;
    }
    NoEarlySeparator(t, h.fullName);
    BeforeFirst(s, Separator, |t|);
    assert s[..|t|] == t;
  }

  /**
   * Round trip: the label of a hit whose ticker is stripped, holds no " - " and does not end
   * in " -" reads back as that ticker, provided the label mentions neither the cross mark
   * nor "Aucune".
   */
  lemma ExtractTickerRoundTrip(h: Hit)
    requires Strip(h.ticker) == h.ticker
    requires !Contains(h.ticker, Separator) && !(|h.ticker| >= 2 && h.ticker[|h.ticker| - 2..] == " -")
    requires !Contains(Label(h), Cross) && !Contains(Label(h), "Aucune")
    ensures ExtractTicker(Label(h)) == h.ticker
  {
    LabelHead(h);
    ExtractTickerHead(Label(h));
  }

  /** Moving " -" from the end of the ticker to the start of the name leaves the label unchanged. */
  lemma LabelShift(t: string, name: string, score: int)
    ensures Label(Hit(t + " -", name, score)) == Label(Hit(t, "- " + name, score))
  {
    assert (t + " -") + Separator + name == t + Separator + ("- " + name);
  }

  /**
   * The " -" condition is needed: the label of a ticker that ends in " -" reads back without
   * that ending, because its first " - " then starts inside the ticker.
   */
  lemma ExtractTickerRoundTripCounterexample(h: Hit, t: string)
    requires h.ticker == t + " -"
    requires Strip(t) == t
    requires !Contains(t, Separator) && !(|t| >= 2 && t[|t| - 2..] == " -")
    requires !Contains(Label(h), Cross) && !Contains(Label(h), "Aucune")
    ensures ExtractTicker(Label(h)) == t
    ensures ExtractTicker(Label(h)) != h.ticker
  {
    var shifted := Hit(t, "- " + h.fullName, h.score);
    LabelShift(t, h.fullName, h.score);
    ExtractTickerRoundTrip(shifted);
  }
}
