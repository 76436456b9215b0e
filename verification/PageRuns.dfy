/**
 Whole runs of the page cache (server/src/read_api.rs:333-349 and 565-614): which frozen list a cursor reads,
 for whom and for how long, stated on the requests.
 */
module PageRuns {
  import opened Wrappers
  import opened PageCache

  type Limit = n: nat | n > 0 witness 1

  datatype Event =
    | List(q: Query, values: seq<Row>, bytes: nat, time: int, now: int, limit: Limit)
    | Continue(q: Query, c: Cursor, now: int, limit: Limit)
    | Release(q: Query, c: Cursor, now: int, limit: Limit)

  /** The cache and the key of the next list. */
  datatype Held = Held(pages: Pages, unused: Key)

  ghost function Step(h: Held, e: Event): (Held, Reply) {
    match e
    case List(q, values, bytes, time, now, limit) =>
      var (pages, reply) := Listed(h.pages, q, values, bytes, time, now, limit, h.unused);
      (Held(pages, h.unused + 1), reply)
    case Continue(q, c, now, limit) => (h, Continued(h.pages, q, c, now, limit))
    case Release(q, c, now, limit) => (h.(pages := Released(h.pages, q, c, now, limit)), Gone)
  }

  ghost function Run(events: seq<Event>): Held {
    if events == [] then Held(map[], 0) else Step(Run(events[..|events| - 1]), events[|events| - 1]).0
  }

  ghost function ReplyTo(events: seq<Event>, n: nat): Reply
    requires n < |events|
  {
    Step(Run(events[..n]), events[n]).1
  }

  // ---- What is frozen, on the requests ----

  /** The key under which request k would freeze a list: how many lists were asked for before. */
  function KeyAt(events: seq<Event>, k: nat): nat
    requires k <= |events|
  {
    if k == 0 then 0 else KeyAt(events, k - 1) + if events[k - 1].List? then 1 else 0
  }

  /** Request k is for a list of more than one page, and there is room to freeze it. */
  ghost predicate Freezes(events: seq<Event>, k: nat)
    requires k < |events|
  {
    events[k].List? && |events[k].values| > events[k].limit && !ReplyTo(events, k).Full?
  }

  function Expiry(e: Event): int
    requires e.List?
  {
    e.time + 300_000
  }

  /** The cursor is one of the traversal that the list was frozen for. */
  predicate Belongs(list: Event, key: Key, q: Query, c: Cursor, limit: Limit)
    requires list.List?
  {
    && c.key == key && q.owner == list.q.owner && q.path == list.q.path && q.parameters == list.q.parameters
    && c.expires == Expiry(list) && 0 < c.offset < |list.values| && c.offset % limit == 0
  }

  /** Request m lets go of what request k froze: because it is out of date by then, or because its reader says so. */
  predicate Drops(events: seq<Event>, m: nat, k: nat)
    requires k < m < |events| && events[k].List?
  {
    || (events[m].List? && |events[m].values| > events[m].limit && Expiry(events[k]) <= events[m].now)
    || (events[m].Release? && events[m].now < Expiry(events[k])
        && Belongs(events[k], KeyAt(events, k), events[m].q, events[m].c, events[m].limit))
  }

  /** What request k froze is still held before request n. */
  ghost predicate Holds(events: seq<Event>, k: nat, n: nat)
    requires n <= |events|
  {
    k < n && Freezes(events, k) && forall m :: k < m < n ==> !Drops(events, m, k)
  }

  function Frozen(e: Event): Page
    requires e.List?
  {
    Page(e.q, Expiry(e), e.values, e.bytes)
  }

  /** What request k froze is in the cache, if it is still held. */
  ghost predicate KeptAs(events: seq<Event>, h: Held, k: nat, n: nat)
    requires n <= |events|
  {
    Holds(events, k, n) ==> KeyAt(events, k) in h.pages && h.pages[KeyAt(events, k)] == Frozen(events[k])
  }

  /** Some request froze what is under the key, and it is still held. */
  ghost predicate FrozenUnder(events: seq<Event>, key: Key, n: nat)
    requires n <= |events|
  {
    exists k: nat :: Holds(events, k, n) && KeyAt(events, k) == key
  }

  ghost predicate PagesAre(events: seq<Event>, h: Held, n: nat)
    requires n <= |events|
  {
    && h.unused == KeyAt(events, n)
    && (forall key :: key in h.pages ==> FrozenUnder(events, key, n))
    && (forall k: nat :: KeptAs(events, h, k, n))
  }

  lemma {:induction false} KeysGrow(events: seq<Event>, k: nat, n: nat)
    requires k <= n <= |events|
    ensures KeyAt(events, k) <= KeyAt(events, n)
    ensures k < n && events[k].List? ==> KeyAt(events, k) < KeyAt(events, n)
    decreases n
  {
    if k < n {
      KeysGrow(events, k, n - 1);
    }
  }

  lemma RunNext(events: seq<Event>, n: nat)
    requires n < |events|
    ensures Run(events[..n + 1]) == Step(Run(events[..n]), events[n]).0
  {
    assert events[..n + 1][..n] == events[..n];
  }

  lemma HoldsNext(events: seq<Event>, k: nat, n: nat)
    requires n < |events|
    ensures Holds(events, k, n + 1) <==>
      (k == n && Freezes(events, n)) || (Holds(events, k, n) && !Drops(events, n, k))
  {
    hide Drops, Freezes;
  }

  /** The list that request n froze, and the others it lets go of. */
  lemma ListStep(events: seq<Event>, h: Held, n: nat)
    requires n < |events| && events[n].List? && PagesAre(events, h, n) && h == Run(events[..n])
    ensures PagesAre(events, Step(h, events[n]).0, n + 1)
  {
    var h', e := Step(h, events[n]).0, events[n];
    hide Freezes, Drops, Holds, FrozenUnder, Total;
    var after := n + 1;
    forall key | key in h'.pages ensures FrozenUnder(events, key, after) {
      ListKeeps(events, h, n, key);
    }
    forall k: nat ensures KeptAs(events, h', k, after) {
      ListHolds(events, h, n, k);
    }
    hide KeptAs;
  }

  lemma ListKeeps(events: seq<Event>, h: Held, n: nat, key: Key)
    requires n < |events| && events[n].List? && PagesAre(events, h, n) && h == Run(events[..n])
    requires key in Step(h, events[n]).0.pages
    ensures FrozenUnder(events, key, n + 1)
  {
    hide Total, Run;
    if key in h.pages {
      assert FrozenUnder(events, key, n);
      var k: nat :| Holds(events, k, n) && KeyAt(events, k) == key;
      assert KeptAs(events, h, k, n);
      KeysGrow(events, k, n);
      ListKept(events, h, n, k);
      HoldsNext(events, k, n);
    } else {
      HoldsNext(events, n, n);
      ListNew(events, h, n, key);
    }
    hide Holds, PagesAre, KeptAs, Step, Drops;
  }

  /** A list that is still there has not been let go of. */
  lemma ListKept(events: seq<Event>, h: Held, n: nat, k: nat)
    requires n < |events| && events[n].List? && k < n && events[k].List?
    requires KeyAt(events, k) in h.pages && h.pages[KeyAt(events, k)] == Frozen(events[k])
    requires KeyAt(events, k) in Step(h, events[n]).0.pages && KeyAt(events, k) != h.unused
    ensures !Drops(events, n, k)
  {
    hide Total, KeyAt;
  }

  lemma ListNew(events: seq<Event>, h: Held, n: nat, key: Key)
    requires n < |events| && events[n].List? && h == Run(events[..n])
    requires key !in h.pages && key in Step(h, events[n]).0.pages
    ensures Freezes(events, n) && key == h.unused
  {
    hide Total, Run;
  }

  lemma ListHolds(events: seq<Event>, h: Held, n: nat, k: nat)
    requires n < |events| && events[n].List? && PagesAre(events, h, n) && h == Run(events[..n])
    ensures KeptAs(events, Step(h, events[n]).0, k, n + 1)
  {
    HoldsNext(events, k, n);
    hide Run, Drops, Step;
    if k == n && Freezes(events, n) {
      ListFrozen(events, h, n);
    } else if k < n && Holds(events, k, n) && !Drops(events, n, k) {
      ListHeld(events, h, n, k);
    }
  }

  lemma ListFrozen(events: seq<Event>, h: Held, n: nat)
    requires n < |events| && h.unused == KeyAt(events, n) && h == Run(events[..n]) && Freezes(events, n)
    ensures var h' := Step(h, events[n]).0;
      KeyAt(events, n) in h'.pages && h'.pages[KeyAt(events, n)] == Frozen(events[n])
  {
    hide Total, Run, KeyAt;
  }

  lemma ListHeld(events: seq<Event>, h: Held, n: nat, k: nat)
    requires n < |events| && events[n].List? && PagesAre(events, h, n)
    requires k < n && Holds(events, k, n) && !Drops(events, n, k)
    ensures var h' := Step(h, events[n]).0;
      KeyAt(events, k) in h'.pages && h'.pages[KeyAt(events, k)] == Frozen(events[k])
  {
    hide Total, Run, ReplyTo;
    assert KeptAs(events, h, k, n);
    KeysGrow(events, k, n);
    hide PagesAre;
  }

  lemma OtherStep(events: seq<Event>, h: Held, n: nat)
    requires n < |events| && !events[n].List? && PagesAre(events, h, n) && h == Run(events[..n])
    ensures PagesAre(events, Step(h, events[n]).0, n + 1)
  {
    var h' := Step(h, events[n]).0;
    hide Freezes, Drops, Holds, FrozenUnder, Run;
    var after := n + 1;
    forall key | key in h'.pages ensures FrozenUnder(events, key, after) {
      OtherKeeps(events, h, n, key);
    }
    forall k: nat ensures KeptAs(events, h', k, after) {
      OtherHolds(events, h, n, k);
    }
    hide KeptAs;
  }

  /** Two lists are never under the same key. */
  lemma SameKey(events: seq<Event>, k: nat, m: nat)
    requires k < |events| && m < |events| && events[k].List? && events[m].List?
    requires KeyAt(events, k) == KeyAt(events, m)
    ensures k == m
  {
    if k < m {
      KeysGrow(events, k, m);
    } else if m < k {
      KeysGrow(events, m, k);
    }
  }

  lemma OtherKeeps(events: seq<Event>, h: Held, n: nat, key: Key)
    requires n < |events| && !events[n].List? && PagesAre(events, h, n)
    requires key in Step(h, events[n]).0.pages
    ensures FrozenUnder(events, key, n + 1)
  {
    assert FrozenUnder(events, key, n);
    var k: nat :| Holds(events, k, n) && KeyAt(events, k) == key;
    assert KeptAs(events, h, k, n);
    HoldsNext(events, k, n);
    hide Continued;
  }

  lemma OtherHolds(events: seq<Event>, h: Held, n: nat, k: nat)
    requires n < |events| && !events[n].List? && PagesAre(events, h, n)
    ensures KeptAs(events, Step(h, events[n]).0, k, n + 1)
  {
    HoldsNext(events, k, n);
    if k < n && Holds(events, k, n) {
      assert KeptAs(events, h, k, n);
    }
    hide Continued;
  }

  lemma {:induction false} PagesInRuns(events: seq<Event>, n: nat)
    requires n <= |events|
    ensures PagesAre(events, Run(events[..n]), n)
    decreases n
  {
    if n == 0 {
      assert events[..0] == [];
    } else {
      PagesInRuns(events, n - 1);
      RunNext(events, n - 1);
      hide PagesAre, Step;
      if events[n - 1].List? {
        ListStep(events, Run(events[..n - 1]), n - 1);
      } else {
        OtherStep(events, Run(events[..n - 1]), n - 1);
      }
    }
  }

  // ---- The answers ----

  /** The rows from the offset on, one page of them, and where the next page begins, if there is one. */
  predicate PageOf(reply: Reply, list: Event, c: Cursor, limit: Limit)
    requires list.List? && 0 < c.offset < |list.values|
  {
    var left := |list.values| - c.offset;
    && reply.Rows?
    && reply.rows == (if limit < left then list.values[c.offset..][..limit] else list.values[c.offset..])
    && reply.next == (if limit < left then Some(Cursor(c.key, c.expires, c.offset + limit)) else None)
  }

  /** A later page is answered exactly to the reader, path and parameters its list was frozen for, within five
      minutes of the time the list was taken and unless it was given up; then it is that page of that list. */
  lemma ContinueExactly(events: seq<Event>, n: nat)
    requires n < |events| && events[n].Continue?
    ensures var e, reply := events[n], ReplyTo(events, n);
      && (reply.Gone? <==> e.c.expires <= e.now || !FrozenUnder(events, e.c.key, n))
      && (reply.Rows? <==> e.now < e.c.expires && exists k: nat :: Serves(events, k, n, e.q, e.c, e.limit))
      && !reply.Full?
  {
    PagesInRuns(events, n);
    var h, e := Run(events[..n]), events[n];
    hide Run, Continued, FrozenUnder, KeptAs;
    if e.c.key in h.pages {
      var k := HeldUnder(events, n);
      ContinueFound(events, n, k);
      forall m: nat | Serves(events, m, n, e.q, e.c, e.limit) ensures m == k {
        ServesOne(events, n, k, m);
      }
    } else {
      ContinueMissing(events, n);
    }
    hide Serves, Holds, PagesAre;
  }

  /** And then it is that page of that list. */
  lemma ContinueServes(events: seq<Event>, n: nat, k: nat)
    requires n < |events| && events[n].Continue? && events[n].now < events[n].c.expires
    requires Serves(events, k, n, events[n].q, events[n].c, events[n].limit)
    ensures PageOf(ReplyTo(events, n), events[k], events[n].c, events[n].limit)
  {
    PagesInRuns(events, n);
    assert KeptAs(events, Run(events[..n]), k, n);
    hide Run, FrozenUnder, PagesAre;
    ContinueFound(events, n, k);
  }

  lemma HeldUnder(events: seq<Event>, n: nat) returns (k: nat)
    requires n < |events| && events[n].Continue? && PagesAre(events, Run(events[..n]), n)
    requires events[n].c.key in Run(events[..n]).pages
    ensures Holds(events, k, n) && KeyAt(events, k) == events[n].c.key && FrozenUnder(events, events[n].c.key, n)
    ensures Run(events[..n]).pages[events[n].c.key] == Frozen(events[k])
  {
    hide Run, Drops, ReplyTo, Frozen;
    assert FrozenUnder(events, events[n].c.key, n);
    k :| Holds(events, k, n) && KeyAt(events, k) == events[n].c.key;
    assert KeptAs(events, Run(events[..n]), k, n);
  }

  lemma ContinueMissing(events: seq<Event>, n: nat)
    requires n < |events| && events[n].Continue? && PagesAre(events, Run(events[..n]), n)
    requires events[n].c.key !in Run(events[..n]).pages
    ensures ReplyTo(events, n).Gone? && !FrozenUnder(events, events[n].c.key, n)
    ensures forall k: nat :: !Serves(events, k, n, events[n].q, events[n].c, events[n].limit)
  {
    hide Run, Drops;
    forall k: nat | Holds(events, k, n) ensures KeyAt(events, k) != events[n].c.key {
      assert KeptAs(events, Run(events[..n]), k, n);
    }
  }

  lemma ServesOne(events: seq<Event>, n: nat, k: nat, m: nat)
    requires n <= |events| && Holds(events, k, n) && Holds(events, m, n) && KeyAt(events, k) == KeyAt(events, m)
    ensures k == m
  {
    hide Drops;
    SameKey(events, k, m);
  }

  lemma ContinueFound(events: seq<Event>, n: nat, k: nat)
    requires n < |events| && events[n].Continue? && k < n && events[k].List? && Holds(events, k, n)
    requires var pages := Run(events[..n]).pages;
      events[n].c.key == KeyAt(events, k) && events[n].c.key in pages && pages[events[n].c.key] == Frozen(events[k])
    ensures var e, reply := events[n], ReplyTo(events, n);
      && (reply.Gone? <==> e.c.expires <= e.now) && !reply.Full?
      && (reply.Rows? <==> e.now < e.c.expires && Serves(events, k, n, e.q, e.c, e.limit))
      && (reply.Rows? ==> PageOf(reply, events[k], e.c, e.limit))
  {
    hide Run, Holds, KeyAt;
  }

  /** Request k froze the list of this cursor, and it is still held. */
  ghost predicate Serves(events: seq<Event>, k: nat, n: nat, q: Query, c: Cursor, limit: Limit)
    requires n <= |events|
  {
    Holds(events, k, n) && Belongs(events[k], KeyAt(events, k), q, c, limit)
  }

  /** The lists that are not out of date. */
  function UpToDate(pages: Pages, now: int): Pages {
    map key | key in pages && now < pages[key].expires :: pages[key]
  }

  /** A list of one page is answered as it is; a longer one is frozen for five minutes and answered page by page,
      unless there are 128 frozen lists already or it would make them more than 32 MiB. */
  lemma ListExactly(events: seq<Event>, n: nat)
    requires n < |events| && events[n].List?
    ensures var e, reply, kept := events[n], ReplyTo(events, n), UpToDate(Run(events[..n]).pages, events[n].now);
      reply ==
        if |e.values| <= e.limit then Rows(e.values, None)
        else if |kept| >= 128 || Total(kept) + e.bytes > 33_554_432 then Full
        else Rows(e.values[..e.limit], Some(Cursor(KeyAt(events, n), e.time + 300_000, e.limit)))
  {
    PagesInRuns(events, n);
    UpToDateIs(Run(events[..n]).pages, events[n].now);
    hide Run, Total, FrozenUnder, KeptAs, KeyAt, UpToDate, Live;
  }

  lemma UpToDateIs(pages: Pages, now: int)
    ensures UpToDate(pages, now) == Live(pages, now)
  {
  }
}
