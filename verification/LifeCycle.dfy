/**
 The life cycle of an article that was handed to a server, as a ledger: a map from each article that is handed out and
 not yet disposed of to the one place that holds it. Each call's events are checked against the ledger, and the ledger
 says exactly what the queues hold.
 */
module LifeCycle {
  import opened Options
  import opened Connections
  import opened Sessions

  /** A server's prefetch queue, a connection's `next_request`, or a connection's response queue. */
  datatype Place = Prefetched(server: nat) | Unsent(server: nat, conn: nat) | InFlight(server: nat, conn: nat)

  type Ledger = map<Article, Place>

  /** The places that connection c of server s works on. */
  predicate Local(p: Place, s: nat, c: nat) {
    p == Prefetched(s) || p == Unsent(s, c) || p == InFlight(s, c)
  }

  predicate LegalEvent(place: Ledger, e: Event, s: nat, c: nat) {
    match e
    case Handed(a) => a !in place
    case Assigned(a) => a in place && place[a] == Prefetched(s)
    case Sent(a) => a in place && place[a] == Unsent(s, c)
    case Ended(a, _) => a in place && Local(place[a], s, c)
  }

  function Follow(place: Ledger, e: Event, s: nat, c: nat): Ledger {
    match e
    case Handed(a) => place[a := Prefetched(s)]
    case Assigned(a) => place[a := Unsent(s, c)]
    case Sent(a) => place[a := InFlight(s, c)]
    case Ended(a, _) => place - {a}
  }

  /** Every event is legal when its turn comes: nothing is handed out twice, sent without having been assigned, or
      disposed of without being held. */
  predicate Legal(place: Ledger, events: seq<Event>, s: nat, c: nat)
    decreases |events|
  {
    events == [] || (LegalEvent(place, events[0], s, c) && Legal(Follow(place, events[0], s, c), events[1..], s, c))
  }

  function FollowAll(place: Ledger, events: seq<Event>, s: nat, c: nat): Ledger
    decreases |events|
  {
    if events == [] then place else FollowAll(Follow(place, events[0], s, c), events[1..], s, c)
  }

  lemma {:induction false} LegalConcat(place: Ledger, a: seq<Event>, b: seq<Event>, s: nat, c: nat)
    requires Legal(place, a, s, c) && Legal(FollowAll(place, a, s, c), b, s, c)
    ensures Legal(place, a + b, s, c)
    ensures FollowAll(place, a + b, s, c) == FollowAll(FollowAll(place, a, s, c), b, s, c)
    decreases |a|
  {
    if a == [] {
      assert a + b == b;
    } else {
      assert (a + b)[1..] == a[1..] + b;
      LegalConcat(Follow(place, a[0], s, c), a[1..], b, s, c);
    }
  }

  /** The events dispose of exactly these articles, in this order. */
  predicate Ends(events: seq<Event>, articles: seq<Article>) {
    |events| == |articles| && forall i :: 0 <= i < |events| ==> events[i].Ended? && events[i].a == articles[i]
  }

  predicate Distinct(articles: seq<Article>) {
    forall i, j :: 0 <= i < j < |articles| ==> articles[i] != articles[j]
  }

  function Elements(articles: seq<Article>): set<Article> {
    set a | a in articles
  }

  lemma {:induction false} EndsFollow(place: Ledger, events: seq<Event>, articles: seq<Article>, s: nat, c: nat)
    requires Ends(events, articles) && Distinct(articles)
    requires forall a :: a in articles ==> a in place && Local(place[a], s, c)
    ensures Legal(place, events, s, c) && FollowAll(place, events, s, c) == place - Elements(articles)
    decreases |events|
  {
    if events == [] {
      assert place - Elements(articles) == place;
    } else {
      var a := articles[0];
      assert events[0].Ended? && events[0].a == a;
      assert Ends(events[1..], articles[1..]);
      forall b | b in articles[1..] ensures b in (place - {a}) && Local((place - {a})[b], s, c) {
        var i :| 0 <= i < |articles[1..]| && articles[1..][i] == b;
        assert articles[0] != articles[i + 1];
      }
      EndsFollow(place - {a}, events[1..], articles[1..], s, c);
      assert Elements(articles) == {a} + Elements(articles[1..]);
      assert place - {a} - Elements(articles[1..]) == place - Elements(articles);
    }
  }

  lemma {:induction false} PoolAllEnds(queue: seq<Article>)
    ensures Ends(PoolAll(queue), queue)
  {
    if queue != [] {
      PoolAllEnds(queue[1..]);
    }
  }

  function Reversed(articles: seq<Article>): seq<Article> {
    seq(|articles|, i requires 0 <= i < |articles| => articles[|articles| - 1 - i])
  }

  lemma {:induction false} DecodeFromEndEnds(queue: seq<Article>, jobs: Jobs)
    ensures Ends(DecodeFromEnd(queue, jobs), Reversed(queue))
    decreases |queue|
  {
    if queue != [] {
      var rest := queue[..|queue| - 1];
      DecodeFromEndEnds(rest, jobs);
      assert Reversed(queue) == [queue[|queue| - 1]] + Reversed(rest);
    }
  }

  /** The articles among the tags of a response queue. */
  function Articles(tags: seq<Option<Article>>): seq<Article> {
    if tags == [] then []
    else if tags[0].Some? then [tags[0].value] + Articles(tags[1..]) else Articles(tags[1..])
  }

  lemma {:induction false} ArticlesIn(tags: seq<Option<Article>>)
    ensures forall a :: a in Articles(tags) <==> Some(a) in tags
  {
    if tags != [] {
      ArticlesIn(tags[1..]);
      assert forall t :: t in tags <==> t == tags[0] || t in tags[1..];
    }
  }

  lemma {:induction false} ArticlesConcat(x: seq<Option<Article>>, y: seq<Option<Article>>)
    ensures Articles(x + y) == Articles(x) + Articles(y)
  {
    if x == [] {
      assert x + y == y;
    } else {
      assert (x + y)[1..] == x[1..] + y;
      ArticlesConcat(x[1..], y);
    }
  }

  function Only(article: Option<Article>): seq<Article> {
    if article.Some? then [article.value] else []
  }

  lemma {:induction false} DrainEnds(inflight: seq<Option<Article>>, required: bool, jobs: Jobs)
    ensures Ends(DrainEvents(inflight, required, jobs), Articles(inflight))
  {
    if inflight != [] {
      DrainEnds(inflight[1..], required, jobs);
    }
  }

  lemma EndsConcat(e: seq<Event>, x: seq<Article>, f: seq<Event>, y: seq<Article>)
    requires Ends(e, x) && Ends(f, y)
    ensures Ends(e + f, x + y)
  {
  }

  /** `after` has the given articles at the server in addition. */
  ghost predicate HandedTo(place: Ledger, articles: seq<Article>, s: nat, after: Ledger) {
    && (forall a :: a in after <==> a in place || a in articles)
    && (forall a :: a in articles ==> after[a] == Prefetched(s))
    && (forall a :: a in place ==> after[a] == place[a])
  }

  lemma {:induction false} HandAllFollow(place: Ledger, articles: seq<Article>, s: nat, c: nat)
    requires Distinct(articles) && forall a :: a in articles ==> a !in place
    ensures Legal(place, HandAll(articles), s, c)
    ensures HandedTo(place, articles, s, FollowAll(place, HandAll(articles), s, c))
    decreases |articles|
  {
    if articles != [] {
      var first, later := articles[0], articles[1..];
      forall b | b in later ensures b != first {
        var i :| 0 <= i < |later| && later[i] == b;
        assert articles[0] != articles[i + 1];
      }
      HandAllFollow(place[first := Prefetched(s)], later, s, c);
      assert forall a :: a in articles <==> a == first || a in later;
    }
  }

  // ------------------------------------------------------------------------------------- ledger and queues agree

  /** The ledger says Prefetched(s) of exactly the articles in the queue, each once. */
  ghost predicate QueueHolds(place: Ledger, s: nat, queue: seq<Article>) {
    Distinct(queue) && forall a :: a in queue <==> a in place && place[a] == Prefetched(s)
  }

  /** The same for a connection; `hand` is the article of a response that is being handled. */
  ghost predicate ConnHolds(place: Ledger, s: nat, c: nat, next: Option<Request>, inflight: seq<Option<Article>>, hand: Option<Article>) {
    && Distinct(Articles(inflight) + Only(hand))
    && (forall a :: (next.Some? && next.value.article == Some(a)) <==> a in place && place[a] == Unsent(s, c))
    && (forall a :: a in Articles(inflight) + Only(hand) <==> a in place && place[a] == InFlight(s, c))
  }

  /** Nothing outside this server's queue and this connection is touched. */
  ghost predicate Elsewhere(before: Ledger, after: Ledger, s: nat, c: nat) {
    && (forall a :: a in before && !Local(before[a], s, c) ==> a in after && after[a] == before[a])
    && (forall a :: a in after && !Local(after[a], s, c) ==> a in before && before[a] == after[a])
  }

  lemma ElsewhereTwice(x: Ledger, y: Ledger, z: Ledger, s: nat, c: nat)
    requires Elsewhere(x, y, s, c) && Elsewhere(y, z, s, c)
    ensures Elsewhere(x, z, s, c)
  {
  }

  /** The outcome of a call: its events are legal, they leave the rest of the ledger alone, and the ledger they lead
      to says exactly what the queue and the connection now hold. */
  ghost predicate Accounted(place: Ledger, events: seq<Event>, s: nat, c: nat, queue: seq<Article>,
                            next: Option<Request>, inflight: seq<Option<Article>>, hand: Option<Article>)
  {
    var after := FollowAll(place, events, s, c);
    && Legal(place, events, s, c) && Elsewhere(place, after, s, c)
    && QueueHolds(after, s, queue) && ConnHolds(after, s, c, next, inflight, hand)
  }

  /** One accounted call after another. */
  lemma AccountedConcat(place: Ledger, e: seq<Event>, f: seq<Event>, s: nat, c: nat, queue: seq<Article>,
                        next: Option<Request>, inflight: seq<Option<Article>>, hand: Option<Article>)
    requires Legal(place, e, s, c) && Elsewhere(place, FollowAll(place, e, s, c), s, c)
    requires Accounted(FollowAll(place, e, s, c), f, s, c, queue, next, inflight, hand)
    ensures Accounted(place, e + f, s, c, queue, next, inflight, hand)
  {
    LegalConcat(place, e, f, s, c);
    ElsewhereTwice(place, FollowAll(place, e, s, c), FollowAll(place, e + f, s, c), s, c);
  }

  /** What the supply of articles promises: each once, and none that any server holds. */
  ghost predicate FreshSupply(place: Ledger, supply: Supply) {
    Distinct(supply.found) && forall a :: a in supply.found ==> a !in place
  }

  /** `discard` of the article in hand disposes of it. */
  lemma DiscardHand(place: Ledger, s: nat, c: nat, queue: seq<Article>, next: Option<Request>,
                    inflight: seq<Option<Article>>, hand: Option<Article>, events: seq<Event>)
    requires QueueHolds(place, s, queue) && ConnHolds(place, s, c, next, inflight, hand) && Ends(events, Only(hand))
    ensures Accounted(place, events, s, c, queue, next, inflight, None)
  {
    forall a | a in Only(hand) ensures a in place && Local(place[a], s, c) {
      assert a in Articles(inflight) + Only(hand);
    }
    EndsFollow(place, events, Only(hand), s, c);
    var after := place - Elements(Only(hand));
    var n := |Articles(inflight)|;
    assert (Articles(inflight) + Only(hand))[..n] == Articles(inflight) + Only(None);
    forall a ensures a in Articles(inflight) + Only(None) <==> a in after && after[a] == InFlight(s, c) {
      if a in Articles(inflight) {
        var i :| 0 <= i < n && Articles(inflight)[i] == a;
        if hand.Some? {
          assert (Articles(inflight) + Only(hand))[i] != (Articles(inflight) + Only(hand))[n];
        }
      }
    }
  }

  /** `discard` of the article that waits to be sent. */
  lemma DiscardNext(place: Ledger, s: nat, c: nat, queue: seq<Article>, next: Option<Request>,
                    inflight: seq<Option<Article>>, hand: Option<Article>, events: seq<Event>)
    requires QueueHolds(place, s, queue) && ConnHolds(place, s, c, next, inflight, hand)
    requires next.Some? && Ends(events, Only(next.value.article))
    ensures Accounted(place, events, s, c, queue, None, inflight, hand)
  {
    EndsFollow(place, events, Only(next.value.article), s, c);
  }

  /** `hard_reset` disposes of everything the connection holds, each article once. */
  lemma ResetHolds(place: Ledger, s: nat, c: nat, x: Session, feed: Feed, limit: nat, required: bool, jobs: Jobs)
    requires QueueHolds(place, s, feed.queue) && ConnHolds(place, s, c, x.next, x.inflight, None)
    ensures var r := HardReset(x, feed, limit, required, jobs);
      r.feed == feed && Accounted(place, r.events, s, c, feed.queue, None, [], None)
  {
    var unsent := if x.next.Some? then Discard(x.next.value.article, true, required, jobs) else [];
    var drained := DrainEvents(x.inflight, required, jobs);
    if x.next.Some? {
      DiscardNext(place, s, c, feed.queue, x.next, x.inflight, None, unsent);
    }
    var place1 := FollowAll(place, unsent, s, c);
    DrainEnds(x.inflight, required, jobs);
    assert Articles(x.inflight) + Only(None) == Articles(x.inflight);
    EndsFollow(place1, drained, Articles(x.inflight), s, c);
    AccountedConcat(place, unsent, drained, s, c, feed.queue, None, [], None);
  }

  // ---------------------------------------------------------------------------------------------- the calls, in turn

  /** `get_article` accounts for what it does to the queue: an article it returns has left the queue, or is still in it
      when only peeked at. */
  ghost predicate Fetched(place: Ledger, s: nat, c: nat, peek: bool, feed: Feed, found: Option<Article>, events: seq<Event>) {
    var after := FollowAll(place, events, s, c);
    && Legal(place, events, s, c)
    && (forall a :: a in after && after[a] != Prefetched(s) ==> a in place && place[a] == after[a])
    && (forall a :: a in place && place[a] != Prefetched(s) ==> a in after && after[a] == place[a])
    && QueueHolds(after, s, (if peek then [] else Only(found)) + feed.queue)
    && (found.Some? && peek ==> feed.queue != [] && feed.queue[0] == found.value)
  }

  /** Handing articles out and disposing of all of them leaves the ledger as it was. */
  lemma HandedAndEnded(place: Ledger, s: nat, c: nat, found: seq<Article>, events: seq<Event>, all: seq<Article>)
    requires Distinct(found) && (forall a :: a in found ==> a !in place)
    requires Ends(events, all) && Distinct(all) && forall a :: a in all <==> a in found
    ensures Legal(place, HandAll(found) + events, s, c) && FollowAll(place, HandAll(found) + events, s, c) == place
  {
    HandAllFollow(place, found, s, c);
    var place1 := FollowAll(place, HandAll(found), s, c);
    EndsFollow(place1, events, all, s, c);
    LegalConcat(place, HandAll(found), events, s, c);
    assert place1 - Elements(all) == place;
  }

  /** The order in which articles past retention are disposed of: taken from the end, after the first unless it was
      only peeked at. */
  function Disposed(found: seq<Article>, peek: bool): seq<Article>
    requires found != []
  {
    if peek then Reversed(found) else [found[0]] + Reversed(found[1..])
  }

  function DisposedEvents(found: seq<Article>, peek: bool, jobs: Jobs): seq<Event>
    requires found != []
  {
    if peek then DecodeFromEnd(found, jobs)
    else [Ended(found[0], DecodeEnd(found[0], jobs))] + DecodeFromEnd(found[1..], jobs)
  }

  lemma DisposedEnds(found: seq<Article>, peek: bool, jobs: Jobs)
    requires found != []
    ensures Ends(DisposedEvents(found, peek, jobs), Disposed(found, peek))
  {
    DecodeFromEndEnds(found, jobs);
    DecodeFromEndEnds(found[1..], jobs);
    if !peek {
      EndsConcat([Ended(found[0], DecodeEnd(found[0], jobs))], [found[0]], DecodeFromEnd(found[1..], jobs), Reversed(found[1..]));
    }
  }

  lemma ExpiredEvents(feed: Feed, peek: bool, supply: Supply, jobs: Jobs)
    requires feed.queue == [] && supply.searchDue && supply.found != [] && supply.expired
    ensures GetArticle(feed, peek, supply, jobs)
            == (feed, None, HandAll(supply.found) + DisposedEvents(supply.found, peek, jobs))
  {
    var handed, last := HandAll(supply.found), DecodeFromEnd(supply.found, jobs);
    assert handed + [] + last == handed + last;
    var first, rest := [Ended(supply.found[0], DecodeEnd(supply.found[0], jobs))], DecodeFromEnd(supply.found[1..], jobs);
    assert handed + first + rest == handed + (first + rest);
  }

  /** Articles past retention are all disposed of, each once. */
  lemma ExpiredFetched(place: Ledger, s: nat, c: nat, feed: Feed, peek: bool, supply: Supply, jobs: Jobs)
    requires QueueHolds(place, s, feed.queue) && FreshSupply(place, supply)
    requires feed.queue == [] && supply.searchDue && supply.found != [] && supply.expired
    ensures var (feed1, found, events) := GetArticle(feed, peek, supply, jobs); Fetched(place, s, c, peek, feed1, found, events)
  {
    DisposedEnds(supply.found, peek, jobs);
    AllOfThem(supply.found, peek, Disposed(supply.found, peek));
    HandedAndEnded(place, s, c, supply.found, DisposedEvents(supply.found, peek, jobs), Disposed(supply.found, peek));
    ExpiredEvents(feed, peek, supply, jobs);
    assert (if peek then [] else Only(None)) + feed.queue == feed.queue;
  }

  lemma GetArticleHolds(place: Ledger, s: nat, c: nat, feed: Feed, peek: bool, supply: Supply, jobs: Jobs)
    requires QueueHolds(place, s, feed.queue) && FreshSupply(place, supply)
    ensures var (feed1, found, events) := GetArticle(feed, peek, supply, jobs); Fetched(place, s, c, peek, feed1, found, events)
  {
    var (feed1, found, events) := GetArticle(feed, peek, supply, jobs);
    if feed.queue == [] && supply.searchDue && supply.found != [] {
      if supply.expired {
        ExpiredFetched(place, s, c, feed, peek, supply, jobs);
      } else {
        HandAllFollow(place, supply.found, s, c);
        assert (if peek then [] else Only(found)) + feed1.queue == supply.found;
      }
    } else {
      assert (if peek then [] else Only(found)) + feed1.queue == feed.queue;
    }
  }

  /** Taking the first article off and then the rest from the end, or all from the end, meets each article once. */
  lemma AllOfThem(found: seq<Article>, peek: bool, all: seq<Article>)
    requires Distinct(found) && found != []
    requires all == if peek then Reversed(found) else [found[0]] + Reversed(found[1..])
    ensures Distinct(all) && forall a :: a in all <==> a in found
  {
    var n := |found|;
    forall i | 0 <= i < n
      ensures all[i] == if peek then found[n - 1 - i] else if i == 0 then found[0] else found[n - i]
    {
    }
    forall a | a in found ensures a in all {
      var i :| 0 <= i < n && found[i] == a;
      assert all[if peek then n - 1 - i else if i == 0 then 0 else n - i] == a;
    }
  }

  /** An article taken from the queue waits on the connection. */
  lemma FetchedAssigned(place: Ledger, s: nat, c: nat, feed: Feed, a: Article, events: seq<Event>, next: Option<Request>, inflight: seq<Option<Article>>)
    requires Fetched(place, s, c, false, feed, Some(a), events) && ConnHolds(place, s, c, None, inflight, None)
    requires next.Some? && next.value.article == Some(a)
    ensures Accounted(place, events + [Assigned(a)], s, c, feed.queue, next, inflight, None)
  {
    var after := FollowAll(place, events, s, c);
    assert Only(Some(a)) + feed.queue == [a] + feed.queue;
    AssignHolds(after, s, c, a, feed.queue, next, inflight);
    AccountedConcat(place, events, [Assigned(a)], s, c, feed.queue, next, inflight, None);
  }

  lemma FetchedNothing(place: Ledger, s: nat, c: nat, feed: Feed, events: seq<Event>, inflight: seq<Option<Article>>)
    requires Fetched(place, s, c, false, feed, None, events) && ConnHolds(place, s, c, None, inflight, None)
    ensures Accounted(place, events, s, c, feed.queue, None, inflight, None)
  {
    assert Only(None) + feed.queue == feed.queue;
  }

  /** `prepare_request` moves at most one article from the queue to the connection, or disposes of the waiting one. */
  lemma PrepareHolds(place: Ledger, s: nat, c: nat, x: Session, feed: Feed, mayWork: bool, supply: Supply, required: bool, jobs: Jobs)
    requires QueueHolds(place, s, feed.queue) && ConnHolds(place, s, c, x.next, x.inflight, None)
    requires FreshSupply(place, supply)
    ensures var (y, feed1, events, _) := PrepareRequest(x, feed, mayWork, supply, required, jobs);
      Accounted(place, events, s, c, feed1.queue, y.next, y.inflight, None)
  {
    var (y, feed1, events, _) := PrepareRequest(x, feed, mayWork, supply, required, jobs);
    if (x.login.ready || x.inflight == []) && feed.active && !feed.restart && mayWork && x.next.None? {
      GetArticleHolds(place, s, c, feed, false, supply, jobs);
      var (feed2, found, e) := GetArticle(feed, false, supply, jobs);
      if found.Some? {
        FetchedAssigned(place, s, c, feed2, found.value, e, y.next, x.inflight);
      } else {
        FetchedNothing(place, s, c, feed2, e, x.inflight);
      }
    } else if events != [] {
      DiscardNext(place, s, c, feed.queue, x.next, x.inflight, None, events);
    }
  }

  lemma OneEvent(place: Ledger, e: Event, s: nat, c: nat)
    requires LegalEvent(place, e, s, c)
    ensures Legal(place, [e], s, c) && FollowAll(place, [e], s, c) == Follow(place, e, s, c)
  {
    assert [e][1..] == [];
  }

  lemma AssignHolds(place: Ledger, s: nat, c: nat, a: Article, queue: seq<Article>, next: Option<Request>, inflight: seq<Option<Article>>)
    requires QueueHolds(place, s, [a] + queue) && ConnHolds(place, s, c, None, inflight, None)
    requires next.Some? && next.value.article == Some(a)
    ensures Accounted(place, [Assigned(a)], s, c, queue, next, inflight, None)
  {
    assert a in [a] + queue;
    OneEvent(place, Assigned(a), s, c);
    var after := place[a := Unsent(s, c)];
    forall i, j | 0 <= i < j < |queue| ensures queue[i] != queue[j] {
      assert ([a] + queue)[i + 1] != ([a] + queue)[j + 1];
    }
    forall b ensures b in queue <==> b in after && after[b] == Prefetched(s) {
      if b in queue {
        var i :| 0 <= i < |queue| && queue[i] == b;
        assert ([a] + queue)[0] != ([a] + queue)[i + 1] && b in [a] + queue;
      }
    }
  }

  lemma SendHolds(place: Ledger, s: nat, c: nat, request: Request, queue: seq<Article>, inflight: seq<Option<Article>>, events: seq<Event>)
    requires QueueHolds(place, s, queue) && ConnHolds(place, s, c, Some(request), inflight, None)
    requires events == if request.article.Some? then [Sent(request.article.value)] else []
    ensures Accounted(place, events, s, c, queue, None, inflight + [request.article], None)
  {
    ArticlesConcat(inflight, [request.article]);
    assert Articles([request.article]) == Only(request.article);
    assert Articles(inflight) + Only(None) == Articles(inflight);
    if request.article.Some? {
      var a := request.article.value;
      OneEvent(place, Sent(a), s, c);
      assert a !in Articles(inflight) + Only(None);
    }
  }

  /** Sending moves the waiting article into flight, or disposes of it, or leaves it where it is. */
  lemma SendNextHolds(place: Ledger, s: nat, c: nat, x: Session, feed: Feed, required: bool, env: WriteEnv)
    requires QueueHolds(place, s, feed.queue) && ConnHolds(place, s, c, x.next, x.inflight, None)
    requires x.next.Some? && x.permits > 0
    ensures var r := SendNext(x, feed, required, env);
      Accounted(place, r.events, s, c, r.feed.queue, r.s.next, r.s.inflight, None)
  {
    var request := x.next.value;
    var r := SendNext(x, feed, required, env);
    if request.article.Some? && (request.article.value in env.jobs.removed || request.article.value in env.jobs.paused) {
      DiscardNext(place, s, c, feed.queue, x.next, x.inflight, None, r.events);
    } else if env.send.Breaks? {
      ResetHolds(place, s, c, x, feed, env.limit, required, env.jobs);
      assert r.events == HardReset(x, feed, env.limit, required, env.jobs).events;
    } else if env.send.Takes? {
      SendHolds(place, s, c, request, feed.queue, x.inflight, r.events);
    }
  }

  /** `write` accounts for every article. */
  lemma WriteHolds(place: Ledger, s: nat, c: nat, x: Session, feed: Feed, required: bool, env: WriteEnv)
    requires QueueHolds(place, s, feed.queue) && ConnHolds(place, s, c, x.next, x.inflight, None)
    requires FreshSupply(place, env.supply)
    ensures var r := Write(x, feed, required, env);
      Accounted(place, r.events, s, c, r.feed.queue, r.s.next, r.s.inflight, None)
  {
    var r := Write(x, feed, required, env);
    if x.wire.buffer != "" && env.flush.Breaks? {
      ResetHolds(place, s, c, x, feed, env.limit, required, env.jobs);
      assert r.events == HardReset(x, feed, env.limit, required, env.jobs).events;
    } else if !(x.wire.buffer != "" && env.flush.WouldBlock?) {
      var x1 := x.(wire := FlushBuffer(x.wire, env.flush));
      if x1.wire.buffer == "" {
        WriteRequestHolds(place, s, c, x1, feed, required, env);
      }
    }
  }

  lemma WriteRequestHolds(place: Ledger, s: nat, c: nat, x: Session, feed: Feed, required: bool, env: WriteEnv)
    requires QueueHolds(place, s, feed.queue) && ConnHolds(place, s, c, x.next, x.inflight, None)
    requires FreshSupply(place, env.supply)
    ensures var r := WriteRequest(x, feed, required, env);
      Accounted(place, r.events, s, c, r.feed.queue, r.s.next, r.s.inflight, None)
  {
    PrepareHolds(place, s, c, x, feed, env.mayWork, env.supply, required, env.jobs);
    var (y, feed1, e, work) := PrepareRequest(x, feed, env.mayWork, env.supply, required, env.jobs);
    if work && y.next.Some? && y.permits > 0 {
      var after := FollowAll(place, e, s, c);
      SendNextHolds(after, s, c, y, feed1, required, env);
      var r := SendNext(y, feed1, required, env);
      AccountedConcat(place, e, r.events, s, c, r.feed.queue, r.s.next, r.s.inflight, None);
    }
  }

  /** `reset_article_queue` frees every prefetched article. */
  lemma ResetQueueHolds(place: Ledger, s: nat, c: nat, feed: Feed, next: Option<Request>, inflight: seq<Option<Article>>)
    requires QueueHolds(place, s, feed.queue) && ConnHolds(place, s, c, next, inflight, None)
    ensures var (feed1, events) := ResetQueue(feed);
      feed1.queue == [] && Accounted(place, events, s, c, [], next, inflight, None)
  {
    PoolAllEnds(feed.queue);
    EndsFollow(place, PoolAll(feed.queue), feed.queue, s, c);
  }

  /** A login step that leaves a waiting article alone. */
  lemma LoginHolds(place: Ledger, s: nat, c: nat, next: Option<Request>, next1: Option<Request>, inflight: seq<Option<Article>>)
    requires ConnHolds(place, s, c, next, inflight, None)
    requires (HoldsArticle(next) ==> next1 == next) && (HoldsArticle(next1) ==> next1 == next)
    ensures ConnHolds(place, s, c, next1, inflight, None)
  {
    assert forall a :: (next.Some? && next.value.article == Some(a)) <==> (next1.Some? && next1.value.article == Some(a));
  }

  /** A connection that may be asked to log in: no article waits unless its login is complete. */
  predicate LoginSafe(x: Session, code: int) {
    LoginExact(x.login) && !Surprised(x.login, x.next, code) && (!x.login.ready ==> !HoldsArticle(x.next))
  }

  /** `reset_nw` from outside the response loop has no article in hand. */
  lemma ResetNwHolds(place: Ledger, s: nat, c: nat, x: Session, feed: Feed, retry: bool, limit: nat, required: bool, jobs: Jobs)
    requires QueueHolds(place, s, feed.queue) && ConnHolds(place, s, c, x.next, x.inflight, None)
    ensures var r := ResetNw(x, feed, None, retry, limit, required, jobs);
      Accounted(place, r.events, s, c, r.feed.queue, None, [], None)
  {
    ResetHolds(place, s, c, x, feed, limit, required, jobs);
    assert ResetNw(x, feed, None, retry, limit, required, jobs).events == HardReset(x, feed, limit, required, jobs).events;
  }

  /** What a permanent error makes of the prefetched articles and of the connection. */
  lemma PenalizeHolds(place: Ledger, s: nat, c: nat, x: Session, feed: Feed, response: Response, required: bool, limit: nat)
    requires QueueHolds(place, s, feed.queue) && ConnHolds(place, s, c, x.next, x.inflight, None)
    ensures var r := Penalize(x, feed, response, required, limit);
      Accounted(place, r.events, s, c, r.feed.queue, r.s.next, r.s.inflight, None)
  {
    var r := Penalize(x, feed, response, required, limit);
    if response.penalty.Deactivate? {
      var (emptied, pooled) := ResetQueue(feed);
      ResetQueueHolds(place, s, c, feed, x.next, x.inflight);
      ResetNwHolds(FollowAll(place, pooled, s, c), s, c, x, emptied.(active := false), true, limit, required, response.jobs);
      var reset := ResetNw(x, emptied.(active := false), None, true, limit, required, response.jobs);
      AccountedConcat(place, pooled, reset.events, s, c, [], None, [], None);
    } else if response.penalty.Reset? {
      ResetNwHolds(place, s, c, x, feed, true, limit, required, response.jobs);
      assert r.events == ResetNw(x, feed, None, true, limit, required, response.jobs).events;
    }
  }

  lemma FinishConnectNwHolds(place: Ledger, s: nat, c: nat, x: Session, feed: Feed, response: Response, config: Config, limit: nat)
    requires QueueHolds(place, s, feed.queue) && ConnHolds(place, s, c, x.next, x.inflight, None)
    requires LoginSafe(x, response.code)
    ensures var r := FinishConnectNw(x, feed, response, config, limit).0;
      Accounted(place, r.events, s, c, r.feed.queue, r.s.next, r.s.inflight, None)
  {
    FinishConnectKeeps(x.login, x.next, response.code, config, response.jobs);
    var l := FinishConnect(x.login, x.next, response.code, config, response.jobs);
    var x1 := x.(login := l.login, next := l.next);
    LoginHolds(place, s, c, x.next, x1.next, x.inflight);
    if l.failed {
      PenalizeHolds(place, s, c, x1, feed, response, config.required, limit);
      var r := Penalize(x1, feed, response, config.required, limit);
      assert [] + r.events == r.events;
    }
  }

  /** `discard` of one article, as an event about that article alone. */
  lemma DiscardEnds(article: Option<Article>, retry: bool, required: bool, jobs: Jobs)
    ensures Ends(Discard(article, retry, required, jobs), Only(article))
  {
  }

  /** The result of a call is accounted for. */
  ghost predicate ResultHolds(place: Ledger, s: nat, c: nat, r: Result) {
    Accounted(place, r.events, s, c, r.feed.queue, r.s.next, r.s.inflight, None)
  }

  lemma ResultsHold(place: Ledger, s: nat, c: nat, r: Result, rest: Result, parked: bool)
    requires Legal(place, r.events, s, c) && Elsewhere(place, FollowAll(place, r.events, s, c), s, c)
    requires ResultHolds(FollowAll(place, r.events, s, c), s, c, rest)
    ensures ResultHolds(place, s, c, rest.(events := r.events + rest.events, parked := parked))
  {
    AccountedConcat(place, r.events, rest.events, s, c, rest.feed.queue, rest.s.next, rest.s.inflight, None);
  }

  lemma LoginResponseHolds(place: Ledger, s: nat, c: nat, x: Session, feed: Feed, response: Response, article: Option<Article>,
                           config: Config, limit: nat)
    requires QueueHolds(place, s, feed.queue) && ConnHolds(place, s, c, x.next, x.inflight, article)
    requires LoginSafe(x, response.code)
    ensures ResultHolds(place, s, c, LoginResponse(x, feed, response, article, config, limit))
  {
    var gone := Discard(article, true, config.required, response.jobs);
    DiscardEnds(article, true, config.required, response.jobs);
    DiscardHand(place, s, c, feed.queue, x.next, x.inflight, article, gone);
    var place1 := FollowAll(place, gone, s, c);
    FinishConnectNwHolds(place1, s, c, x, feed, response, config, limit);
    var r := FinishConnectNw(x, feed, response, config, limit).0;
    ResultsHold(place, s, c, Result(x, feed, gone, false), r, r.parked);
  }

  lemma ResponseToLogin(place: Ledger, s: nat, c: nat, x: Session, feed: Feed, response: Response, article: Option<Article>,
                        config: Config, limit: nat)
    requires QueueHolds(place, s, feed.queue) && ConnHolds(place, s, c, x.next, x.inflight, article)
    requires LoginSafe(x, response.code) && IsLoginResponse(x.login.ready, response.code, article)
    ensures ResultHolds(place, s, c, OnResponse(x, feed, response, article, config, limit))
  {
    var x1 := x.(permits := x.permits + 1);
    assert OnResponse(x, feed, response, article, config, limit) == LoginResponse(x1, feed, response, article, config, limit);
    LoginResponseHolds(place, s, c, x1, feed, response, article, config, limit);
  }

  lemma ResponseToArticle(place: Ledger, s: nat, c: nat, x: Session, feed: Feed, response: Response, article: Option<Article>,
                          config: Config, limit: nat)
    requires QueueHolds(place, s, feed.queue) && ConnHolds(place, s, c, x.next, x.inflight, article)
    requires !IsLoginResponse(x.login.ready, response.code, article)
    ensures var r := OnResponse(x, feed, response, article, config, limit);
      Accounted(place, r.events, s, c, r.feed.queue, r.s.next, r.s.inflight, None)
  {
    var r := OnResponse(x, feed, response, article, config, limit);
    var gone := Discard(article, true, config.required, response.jobs);
    DiscardEnds(article, true, config.required, response.jobs);
    if r.s.generation == x.generation {
      DiscardHand(place, s, c, feed.queue, x.next, x.inflight, article, r.events);
    } else {
      var x1 := x.(permits := x.permits + 1);
      DiscardHand(place, s, c, feed.queue, x.next, x.inflight, article, gone);
      var place1 := FollowAll(place, gone, s, c);
      ResetHolds(place1, s, c, x1, feed, limit, config.required, response.jobs);
      var reset := HardReset(x1, feed, limit, config.required, response.jobs);
      AccountedConcat(place, gone, reset.events, s, c, feed.queue, None, [], None);
    }
  }

  /** Taking the head off the response queue keeps it in hand. */
  lemma PopHolds(place: Ledger, s: nat, c: nat, next: Option<Request>, inflight: seq<Option<Article>>)
    requires ConnHolds(place, s, c, next, inflight, None) && inflight != []
    ensures ConnHolds(place, s, c, next, inflight[1..], inflight[0])
  {
    var whole, rest := Articles(inflight), Articles(inflight[1..]);
    assert whole == Only(inflight[0]) + rest && whole + Only(None) == whole;
    assert forall a :: a in rest + Only(inflight[0]) <==> a in whole;
    if inflight[0].Some? {
      var n := |rest|;
      forall i, j | 0 <= i < j < n + 1 ensures (rest + Only(inflight[0]))[i] != (rest + Only(inflight[0]))[j] {
        assert whole[if j < n then j + 1 else 0] != whole[i + 1];
      }
    }
  }

  /** One response disposes of the article at the head of the response queue, and of nothing that it does not then
      take off the other queues. */
  lemma ReadOneHolds(place: Ledger, s: nat, c: nat, x: Session, feed: Feed, generation: nat, response: Response, config: Config, limit: nat)
    requires QueueHolds(place, s, feed.queue) && ConnHolds(place, s, c, x.next, x.inflight, None)
    requires SessionOk(x) && !Surprised(x.login, x.next, response.code)
    ensures var r := ReadOne(x, feed, generation, response, config, limit);
      Accounted(place, r.events, s, c, r.feed.queue, r.s.next, r.s.inflight, None)
  {
    if x.generation == generation && x.inflight != [] {
      PopHolds(place, s, c, x.next, x.inflight);
      var x1, article := x.(inflight := x.inflight[1..], popped := x.popped + 1), x.inflight[0];
      if IsLoginResponse(x1.login.ready, response.code, article) {
        ResponseToLogin(place, s, c, x1, feed, response, article, config, limit);
      } else {
        ResponseToArticle(place, s, c, x1, feed, response, article, config, limit);
      }
    }
  }

  lemma {:induction false} ReadAllHolds(place: Ledger, s: nat, c: nat, x: Session, feed: Feed, generation: nat, responses: seq<Response>,
                                        config: Config, limit: nat)
    requires QueueHolds(place, s, feed.queue) && ConnHolds(place, s, c, x.next, x.inflight, None)
    requires SessionOk(x) && Unsurprised(x, feed, generation, responses, config, limit)
    ensures ResultHolds(place, s, c, ReadAll(x, feed, generation, responses, config, limit))
    decreases |responses|
  {
    if responses != [] && x.generation == generation && x.inflight != [] {
      ReadOneHolds(place, s, c, x, feed, generation, responses[0], config, limit);
      ReadOneIsOk(x, feed, generation, responses[0], config, limit);
      var r := ReadOne(x, feed, generation, responses[0], config, limit);
      ReadAllHolds(FollowAll(place, r.events, s, c), s, c, r.s, r.feed, generation, responses[1..], config, limit);
      var rest := ReadAll(r.s, r.feed, generation, responses[1..], config, limit);
      ResultsHold(place, s, c, r, rest, r.parked || rest.parked);
    }
  }

  /** What the supply promises a `read`: nothing that a server still holds once the responses were handled. */
  ghost predicate FreshForRead(place: Ledger, s: nat, c: nat, x: Session, feed: Feed, generation: nat, config: Config, env: ReadEnv) {
    FreshSupply(FollowAll(place, ReadAll(x, feed, generation, env.responses, config, env.limit).events, s, c), env.supply)
  }

  /** `read` accounts for every article. */
  lemma ReadHolds(place: Ledger, s: nat, c: nat, x: Session, feed: Feed, generation: nat, config: Config, env: ReadEnv)
    requires QueueHolds(place, s, feed.queue) && ConnHolds(place, s, c, x.next, x.inflight, None)
    requires SessionOk(x) && Unsurprised(x, feed, generation, env.responses, config, env.limit)
    requires FreshForRead(place, s, c, x, feed, generation, config, env)
    ensures var r := Read(x, feed, generation, config, env);
      Accounted(place, r.events, s, c, r.feed.queue, r.s.next, r.s.inflight, None)
  {
    ReadAllHolds(place, s, c, x, feed, generation, env.responses, config, env.limit);
    var r := ReadAll(x, feed, generation, env.responses, config, env.limit);
    var whole := Read(x, feed, generation, config, env);
    if x.isOpen && env.responses != [] && r.s.generation == generation
       && !StoppedEarly(x, feed, generation, env.responses, config, env.limit) {
      var place1 := FollowAll(place, r.events, s, c);
      PrepareHolds(place1, s, c, r.s, r.feed, env.mayWork, env.supply, config.required, env.jobs);
      var (y, feed1, events, _) := PrepareRequest(r.s, r.feed, env.mayWork, env.supply, config.required, env.jobs);
      AccountedConcat(place, r.events, events, s, c, feed1.queue, y.next, y.inflight, None);
    }
  }
}
