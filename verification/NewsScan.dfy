/** agent/brain.go: the news scan, with its seen-set and the eviction of the oldest half. */
module NewsScan {
  import opened Sequences

  /** One article of the feed: its age (in nanoseconds) when the scan reaches it, and how many of the
      bullish and bearish words its lower-cased title and body contain. */
  datatype Article = Article(url: string, age: int, bullish: nat, bearish: nat)

  datatype Sentiment = Neutral | Bullish | Bearish
  datatype Alert = Alert(url: string, sentiment: Sentiment)

  const TEN_MINUTES := 600_000_000_000
  const SEEN_LIMIT := 1000

  // ---- Specification ----

  /** The articles of a batch whose URL is neither in `order` nor earlier in the batch. */
  function NewArticles(order: seq<string>, batch: seq<Article>): seq<Article>
    decreases |batch|
  {
    if batch == [] then []
    else if batch[0].url in order then NewArticles(order, batch[1..])
    else [batch[0]] + NewArticles(order + [batch[0].url], batch[1..])
  }

  function Urls(articles: seq<Article>): (urls: seq<string>)
    ensures |urls| == |articles|
    ensures forall i :: 0 <= i < |urls| ==> urls[i] == articles[i].url
  {
    if articles == [] then [] else [articles[0].url] + Urls(articles[1..])
  }

  function Evict(order: seq<string>): seq<string> {
    if |order| > SEEN_LIMIT then order[|order| / 2..] else order
  }

  function AlertOf(a: Article): seq<Alert> {
    if a.age > TEN_MINUTES || (a.bullish == 0 && a.bearish == 0) then []
    else [Alert(a.url, if a.bearish > a.bullish then Bearish else if a.bullish > a.bearish then Bullish else Neutral)]
  }

  function AlertsOf(articles: seq<Article>): seq<Alert> {
    if articles == [] then [] else AlertOf(articles[0]) + AlertsOf(articles[1..])
  }

  predicate NoDuplicates(s: seq<string>) {
    forall i, j :: 0 <= i < j < |s| ==> s[i] != s[j]
  }

  ghost function Elements(s: seq<string>): set<string> {
    set u | u in s
  }

  // ---- The scanner ----

  class NewsScanner {
    var seen: set<string>
    var order: seq<string>

    ghost predicate Valid()
      reads this
    {
      NoDuplicates(order) && seen == Elements(order)
    }

    constructor ()
      ensures Valid() && order == []
    {
      seen, order := {}, [];
    }

    /** scanNews, from the parsed feed on. */
    method ScanNews(batch: seq<Article>) returns (alerts: seq<Alert>)
      requires Valid()
      modifies this
      ensures Valid()
      ensures order == Evict(old(order) + Urls(NewArticles(old(order), batch)))
      ensures alerts == AlertsOf(NewArticles(old(order), batch))
    {
      alerts := [];
      ghost var taken: seq<Article>, rest := [], NewArticles(order, batch);
      assert batch[0..] == batch;
      for i := 0 to |batch|
        invariant Valid()
        invariant order == old(order) + Urls(taken)
        invariant NewArticles(old(order), batch) == taken + rest
        invariant rest == NewArticles(order, batch[i..])
        invariant alerts == AlertsOf(taken)
      {
        DropStep(batch, i);
        var d := batch[i];
        if d.url in seen {
          continue;
        }
        TakeOne(order, batch[i..], taken);
        seen := seen + {d.url};
        order := order + [d.url];
        Assoc(taken, [d], NewArticles(order, batch[i + 1..]));
        taken, rest := taken + [d], NewArticles(order, batch[i + 1..]);
        if d.age > TEN_MINUTES {
          continue;
        }
        if d.bullish == 0 && d.bearish == 0 {
          continue;
        }
        var sentiment := Neutral;
        if d.bullish > d.bearish {
          sentiment := Bullish;
        }
        if d.bearish > d.bullish {
          sentiment := Bearish;
        }
        alerts := alerts + [Alert(d.url, sentiment)];
      }
      assert batch[|batch|..] == [] && taken + [] == taken;
      EvictOldest();
    }

    /** brain.go:132-143: forget the oldest half once more than 1000 URLs are remembered. */
    method EvictOldest()
      requires Valid()
      modifies this
      ensures Valid() && order == Evict(old(order))
    {
      DistinctCount(order);
      if |seen| > SEEN_LIMIT {
        var half := |seen| / 2;
        var i := 0;
        while i < half && i < |order|
          invariant 0 <= i <= half
          invariant order == old(order)
          invariant seen == Elements(order[i..])
        {
          assert order[i..] == [order[i]] + order[i + 1..];
          assert order[i] !in order[i + 1..];
          seen := seen - {order[i]};
          i := i + 1;
        }
        order := if half < |order| then order[half..] else [];
      }
    }
  }

  lemma {:induction false} TakeOne(order: seq<string>, batch: seq<Article>, taken: seq<Article>)
    requires NoDuplicates(order) && batch != [] && batch[0].url !in order
    ensures NoDuplicates(order + [batch[0].url])
    ensures Elements(order + [batch[0].url]) == Elements(order) + {batch[0].url}
    ensures NewArticles(order, batch) == [batch[0]] + NewArticles(order + [batch[0].url], batch[1..])
    ensures Urls(taken + [batch[0]]) == Urls(taken) + [batch[0].url]
    ensures AlertsOf(taken + [batch[0]]) == AlertsOf(taken) + AlertOf(batch[0])
  {
    AlertsSnoc(taken, batch[0]);
  }

  lemma {:induction false} AlertsSnoc(taken: seq<Article>, a: Article)
    ensures AlertsOf(taken + [a]) == AlertsOf(taken) + AlertOf(a)
  {
    if taken == [] {
      assert [] + [a] == [a] && [a][1..] == [];
      assert AlertsOf([a]) == AlertOf(a) + AlertsOf([]);
    } else {
      assert (taken + [a])[1..] == taken[1..] + [a];
      AlertsSnoc(taken[1..], a);
    }
  }

  lemma {:induction false} DistinctCount(s: seq<string>)
    requires NoDuplicates(s)
    ensures |Elements(s)| == |s|
  {
    if s != [] {
      DistinctCount(s[1..]);
      assert s == [s[0]] + s[1..];
      assert Elements(s) == {s[0]} + Elements(s[1..]);
      assert s[0] !in s[1..];
    }
  }

  // ---- Runs: any number of batches, from the empty scanner ----

  datatype Feed = Feed(order: seq<string>, log: seq<string>)

  /** `order` after the batches, and the log of every URL in the order it was (each time) first seen. */
  function Run(batches: seq<seq<Article>>): Feed {
    if batches == [] then Feed([], [])
    else
      var before := Run(batches[..|batches| - 1]);
      var taken := Urls(NewArticles(before.order, batches[|batches| - 1]));
      Feed(Evict(before.order + taken), before.log + taken)
  }

  /** The number of first-seen URLs that must separate two sightings of one URL. */
  const RECALL := 501

  predicate Remembers(order: seq<string>, log: seq<string>) {
    && |order| <= |log| && order == log[|log| - |order|..]
    && (|order| >= RECALL || |order| == |log|)
    && NoDuplicates(order)
  }

  predicate FarApart(log: seq<string>) {
    forall i, j :: 0 <= i < j < |log| && log[i] == log[j] ==> j - i > RECALL
  }

  lemma {:induction false} TakeOneKeeps(order: seq<string>, u: string, log: seq<string>)
    requires Remembers(order, log) && FarApart(log) && u !in order
    ensures Remembers(order + [u], log + [u]) && FarApart(log + [u])
  {
    assert (log + [u])[|log| - |order|..] == order + [u];
    NewFarApart(order, u, log);
  }

  lemma {:induction false} NewFarApart(order: seq<string>, u: string, log: seq<string>)
    requires Remembers(order, log) && FarApart(log) && u !in order
    ensures FarApart(log + [u])
  {
    var log' := log + [u];
    hide NoDuplicates;
    forall i, j | 0 <= i < j < |log'| && log'[i] == log'[j] ensures j - i > RECALL {
      if j == |log| && |log| - |order| <= i {
        assert log[i] == order[i - (|log| - |order|)];
      }
    }
  }

  lemma {:induction false} TakeKeeps(order: seq<string>, batch: seq<Article>, log: seq<string>)
    requires Remembers(order, log) && FarApart(log)
    ensures var taken := Urls(NewArticles(order, batch));
            Remembers(order + taken, log + taken) && FarApart(log + taken)
    decreases |batch|
  {
    if batch == [] {
      assert order + [] == order && log + [] == log;
    } else if batch[0].url in order {
      TakeKeeps(order, batch[1..], log);
    } else {
      var u := batch[0].url;
      var rest := NewArticles(order + [u], batch[1..]);
      assert Urls([batch[0]] + rest) == [u] + Urls(rest);
      Assoc(order, [u], Urls(rest));
      Assoc(log, [u], Urls(rest));
      TakeOneKeeps(order, u, log);
      TakeKeeps(order + [u], batch[1..], log + [u]);
    }
  }

  /** After any run the order list has no duplicates and is the tail of the log of first sightings: it
      holds the 501 most recent ones, or all of them. No URL is taken again within that distance. */
  lemma {:induction false} Recall(batches: seq<seq<Article>>)
    ensures Remembers(Run(batches).order, Run(batches).log)
    ensures FarApart(Run(batches).log)
  {
    hide NewArticles, Urls;
    if batches != [] {
      Recall(batches[..|batches| - 1]);
      var before := Run(batches[..|batches| - 1]);
      TakeKeeps(before.order, batches[|batches| - 1], before.log);
    }
  }

  lemma {:induction false} TakenAtMost(order: seq<string>, batch: seq<Article>)
    ensures |NewArticles(order, batch)| <= |batch|
    decreases |batch|
  {
    if batch != [] {
      TakenAtMost(order, batch[1..]);
      TakenAtMost(order + [batch[0].url], batch[1..]);
    }
  }

  /** Memory stays bounded by 1000 URLs, or by the largest batch when that is larger. */
  lemma {:induction false} Bounded(batches: seq<seq<Article>>, largest: nat)
    requires forall k :: 0 <= k < |batches| ==> |batches[k]| <= largest
    ensures |Run(batches).order| <= if largest <= SEEN_LIMIT then SEEN_LIMIT else largest
  {
    if batches != [] {
      Bounded(batches[..|batches| - 1], largest);
      TakenAtMost(Run(batches[..|batches| - 1]).order, batches[|batches| - 1]);
    }
  }

  lemma {:induction false} AllNew(order: seq<string>, batch: seq<Article>)
    requires NoDuplicates(order + Urls(batch))
    ensures NewArticles(order, batch) == batch
    decreases |batch|
  {
    if batch != [] {
      var u := batch[0].url;
      assert (order + Urls(batch))[|order|] == u;
      forall k | 0 <= k < |order| ensures order[k] != u { assert (order + Urls(batch))[k] == order[k]; }
      assert order + Urls(batch) == (order + [u]) + Urls(batch[1..]);
      AllNew(order + [u], batch[1..]);
    }
  }

  /** The distance 501 is exact: with 1001 distinct articles and then the last evicted one again, a URL
      is taken twice only 502 first sightings apart. */
  lemma {:induction false} RecallIsTight(first: seq<Article>)
    requires |first| == 1001 && NoDuplicates(Urls(first))
    ensures var log := Run([first, [first[499]]]).log;
            |log| == 1002 && log[499] == log[1001] == first[499].url
  {
    FirstBatch(first);
    var order := Urls(first)[500..];
    EvictedIsNew(first);
    hide NewArticles, NoDuplicates;
    var batches := [first, [first[499]]];
    assert batches[..1] == [first] && batches[1] == [first[499]];
    assert Run(batches).log == Run([first]).log + Urls(NewArticles(order, [first[499]]));
    assert Urls([first[499]]) == [first[499].url];
  }

  lemma {:induction false} FirstBatch(first: seq<Article>)
    requires |first| == 1001 && NoDuplicates(Urls(first))
    ensures Run([first]) == Feed(Urls(first)[500..], Urls(first))
  {
    hide NewArticles, NoDuplicates, Urls;
    AllNewAtFirst(first);
    assert [first][..0] == [] && Run([]) == Feed([], []);
  }

  lemma {:induction false} AllNewAtFirst(batch: seq<Article>)
    requires NoDuplicates(Urls(batch))
    ensures NewArticles([], batch) == batch
  {
    assert [] + Urls(batch) == Urls(batch);
    AllNew([], batch);
  }

  lemma {:induction false} EvictedIsNew(first: seq<Article>)
    requires |first| == 1001 && NoDuplicates(Urls(first))
    ensures NewArticles(Urls(first)[500..], [first[499]]) == [first[499]]
  {
    var order := Urls(first)[500..];
    assert first[499].url !in order by {
      forall k | 0 <= k < |order| ensures order[k] != first[499].url {
        assert order[k] == Urls(first)[500 + k] && Urls(first)[499] == first[499].url;
      }
    }
    assert [first[499]][1..] == [];
    assert NewArticles(order, [first[499]]) == [first[499]] + NewArticles(order + [first[499].url], []);
  }

  lemma {:induction false} AlertsAreNew(taken: seq<Article>, k: nat)
    requires k < |AlertsOf(taken)|
    ensures exists i :: 0 <= i < |taken| && [AlertsOf(taken)[k]] == AlertOf(taken[i])
  {
    var here := AlertOf(taken[0]);
    if k < |here| {
      assert [AlertsOf(taken)[k]] == here;
    } else {
      AlertsAreNew(taken[1..], k - |here|);
      var i :| 0 <= i < |taken[1..]| && [AlertsOf(taken[1..])[k - |here|]] == AlertOf(taken[1..][i]);
      assert taken[1..][i] == taken[i + 1];
      assert AlertsOf(taken)[k] == AlertsOf(taken[1..])[k - |here|];
    }
  }

  lemma {:induction false} NewIsUnseen(order: seq<string>, batch: seq<Article>, i: nat)
    requires i < |NewArticles(order, batch)|
    ensures NewArticles(order, batch)[i].url !in order
    decreases |batch|
  {
    if batch[0].url in order {
      NewIsUnseen(order, batch[1..], i);
    } else if i > 0 {
      NewIsUnseen(order + [batch[0].url], batch[1..], i - 1);
    }
  }

  /** An alert is for a recent article with a sentiment word, whose URL is not one of the 501 URLs
      first seen last before this batch. */
  lemma {:induction false} AlertIsFresh(batches: seq<seq<Article>>, batch: seq<Article>, k: nat, p: nat)
    requires k < |AlertsOf(NewArticles(Run(batches).order, batch))|
    requires p < |Run(batches).log| && |Run(batches).log| - p <= RECALL
    ensures var alert := AlertsOf(NewArticles(Run(batches).order, batch))[k];
            && alert.url != Run(batches).log[p]
            && exists a :: a in batch && a.url == alert.url && a.age <= TEN_MINUTES && a.bullish + a.bearish > 0
  {
    Recall(batches);
    var order, log := Run(batches).order, Run(batches).log;
    var taken := NewArticles(order, batch);
    AlertsAreNew(taken, k);
    var i :| 0 <= i < |taken| && [AlertsOf(taken)[k]] == AlertOf(taken[i]);
    NewIsUnseen(order, batch, i);
    NewIsFromBatch(order, batch, i);
    var a := taken[i];
    assert a in batch && AlertsOf(taken)[k].url == a.url;
    assert log[p] == order[p - (|log| - |order|)];
  }

  lemma {:induction false} NewIsFromBatch(order: seq<string>, batch: seq<Article>, i: nat)
    requires i < |NewArticles(order, batch)|
    ensures NewArticles(order, batch)[i] in batch
    decreases |batch|
  {
    if batch[0].url in order {
      NewIsFromBatch(order, batch[1..], i);
    } else if i > 0 {
      NewIsFromBatch(order + [batch[0].url], batch[1..], i - 1);
    }
  }

  // ---- Which articles raise an alert, and which one ----

  /** Article `i` of the batch is the first with its URL, which is not remembered. */
  predicate FirstSeen(order: seq<string>, batch: seq<Article>, i: nat)
    requires i < |batch|
  {
    batch[i].url !in order && forall j :: 0 <= j < i ==> batch[j].url != batch[i].url
  }

  lemma {:induction false} FirstSeenLater(order: seq<string>, batch: seq<Article>, i: nat)
    requires i + 1 < |batch|
    ensures FirstSeen(order, batch, i + 1)
            <==> FirstSeen(if batch[0].url in order then order else order + [batch[0].url], batch[1..], i)
  {
    assert forall j :: 0 < j < |batch| ==> batch[j] == batch[1..][j - 1];
    var order' := if batch[0].url in order then order else order + [batch[0].url];
    assert batch[i + 1].url in order' <==> batch[i + 1].url in order || batch[i + 1].url == batch[0].url;
    if FirstSeen(order, batch, i + 1) {
      forall j | 0 <= j < i ensures batch[1..][j].url != batch[1..][i].url {
        assert batch[1..][j] == batch[j + 1];
      }
    }
    if FirstSeen(order', batch[1..], i) {
      forall j | 0 <= j < i + 1 ensures batch[j].url != batch[i + 1].url {
        assert j > 0 ==> batch[j] == batch[1..][j - 1];
      }
    }
  }

  lemma {:induction false} NewExactly(order: seq<string>, batch: seq<Article>, a: Article)
    ensures a in NewArticles(order, batch) <==> exists i ::
            0 <= i < |batch| && batch[i] == a && FirstSeen(order, batch, i)
    decreases |batch|
  {
    if batch != [] {
      var rest := batch[1..];
      var order' := if batch[0].url in order then order else order + [batch[0].url];
      NewExactly(order', rest, a);
      forall i: nat | i < |rest| ensures FirstSeen(order, batch, i + 1) <==> FirstSeen(order', rest, i) {
        FirstSeenLater(order, batch, i);
      }
      assert FirstSeen(order, batch, 0) <==> batch[0].url !in order;
      assert forall i :: 0 < i < |batch| ==> batch[i] == rest[i - 1];
      hide FirstSeen;
      if a in NewArticles(order', rest) {
        var i :| 0 <= i < |rest| && rest[i] == a && FirstSeen(order', rest, i);
        assert batch[i + 1] == a && FirstSeen(order, batch, i + 1);
      }
      if i :| 0 <= i < |batch| && batch[i] == a && FirstSeen(order, batch, i) {
        if i > 0 {
          assert rest[i - 1] == a && FirstSeen(order, batch, (i - 1) + 1);
        }
      }
    }
  }

  lemma {:induction false} AlertsExactlyOf(articles: seq<Article>, alert: Alert)
    ensures alert in AlertsOf(articles) <==> exists a :: a in articles && AlertOf(a) == [alert]
  {
    hide AlertOf;
    if articles != [] {
      AlertsExactlyOf(articles[1..], alert);
      assert articles == [articles[0]] + articles[1..];
      AlertLength(articles[0]);
      if alert in AlertOf(articles[0]) {
        assert AlertOf(articles[0]) == [alert];
      }
    }
  }

  lemma {:induction false} AlertLength(a: Article)
    ensures |AlertOf(a)| <= 1
  {
  }

  /** After every run of batches: an alert is raised exactly for an article that is the first with its URL, is
      not remembered, is at most ten minutes old and has a word of sentiment; it is bullish when there are more
      bullish words, bearish when there are more bearish ones, and neutral when there are as many. */
  lemma {:induction false} AlertsExactly(batches: seq<seq<Article>>, batch: seq<Article>, alert: Alert)
    ensures var order := Run(batches).order;
            alert in AlertsOf(NewArticles(order, batch))
            <==> exists i :: 0 <= i < |batch| && FirstSeen(order, batch, i) && batch[i].url == alert.url
                   && batch[i].age <= 600_000_000_000 && batch[i].bullish + batch[i].bearish > 0
                   && (alert.sentiment == Bullish <==> batch[i].bullish > batch[i].bearish)
                   && (alert.sentiment == Bearish <==> batch[i].bearish > batch[i].bullish)
  {
    var order := Run(batches).order;
    var taken := NewArticles(order, batch);
    AlertsExactlyOf(taken, alert);
    forall a: Article
      ensures a in taken <==> exists i :: 0 <= i < |batch| && batch[i] == a && FirstSeen(order, batch, i)
      ensures AlertOf(a) == [alert]
              <==> && a.url == alert.url && a.age <= 600_000_000_000 && a.bullish + a.bearish > 0
                   && (alert.sentiment == Bullish <==> a.bullish > a.bearish)
                   && (alert.sentiment == Bearish <==> a.bearish > a.bullish)
    {
      NewExactly(order, batch, a);
    }
    hide Run, NewArticles, AlertsOf, AlertOf, FirstSeen;
    if i :| 0 <= i < |batch| && FirstSeen(order, batch, i) && batch[i].url == alert.url
            && batch[i].age <= 600_000_000_000 && batch[i].bullish + batch[i].bearish > 0
            && (alert.sentiment == Bullish <==> batch[i].bullish > batch[i].bearish)
            && (alert.sentiment == Bearish <==> batch[i].bearish > batch[i].bullish) {
      assert batch[i] in taken && AlertOf(batch[i]) == [alert];
    }
  }
}
