/**
 Frozen pagination on the server (server/src/read_api.rs:333-349 and 565-614): a long list is frozen
 once, under limits, and every page is cut from the frozen list.
 */
module PageCache {
  import opened Wrappers

  const MAX_PAGES: nat := 128
  const MAX_BYTES: nat := 32 * 1024 * 1024
  const LIFETIME_MS: int := 300_000

  type Key = nat
  type Row = string

  datatype Cursor = Cursor(key: Key, expires: int, offset: nat)

  /** Who reads what: a cursor is only good for the request it was made for. */
  datatype Query = Query(owner: string, path: string, parameters: string)

  datatype Page = Page(query: Query, expires: int, values: seq<Row>, bytes: nat)

  type Pages = map<Key, Page>

  datatype Reply = Rows(rows: seq<Row>, next: Option<Cursor>) | Full | Gone | Mismatch

  // ---- The size of the cache ----

  ghost function Total(pages: Pages): nat {
    if pages == map[] then 0
    else
      var k :| k in pages;
      pages[k].bytes + Total(pages - {k})
  }

  lemma {:induction false} TotalWithout(pages: Pages, k: Key)
    requires k in pages
    ensures Total(pages) == pages[k].bytes + Total(pages - {k})
    decreases |pages|
  {
    var j :| j in pages && Total(pages) == pages[j].bytes + Total(pages - {j});
    if j != k {
      assert (pages - {j}).Keys == pages.Keys - {j};
      TotalWithout(pages - {j}, k);
      assert (pages - {k}).Keys == pages.Keys - {k};
      assert k !in pages - {k} && j in pages - {k};
      TotalWithout(pages - {k}, j);
      assert pages - {j} - {k} == pages - {k} - {j};
    }
  }

  lemma TotalInsert(pages: Pages, k: Key, p: Page)
    requires k !in pages
    ensures Total(pages[k := p]) == Total(pages) + p.bytes
  {
    TotalWithout(pages[k := p], k);
    assert pages[k := p] - {k} == pages;
  }

  lemma {:induction false} TotalSubset(pages: Pages, kept: Pages)
    requires kept.Keys <= pages.Keys && forall k :: k in kept ==> kept[k] == pages[k]
    ensures Total(kept) <= Total(pages) && |kept| <= |pages|
    decreases |pages|
  {
    if pages == map[] {
      assert kept.Keys == {};
      assert kept == map[];
    } else {
      var k :| k in pages;
      TotalWithout(pages, k);
      assert (pages - {k}).Keys == pages.Keys - {k};
      if k in kept {
        TotalWithout(kept, k);
        assert (kept - {k}).Keys == kept.Keys - {k};
        TotalSubset(pages - {k}, kept - {k});
      } else {
        TotalSubset(pages - {k}, kept);
      }
    }
  }

  ghost predicate CacheOk(pages: Pages) {
    |pages| <= MAX_PAGES && Total(pages) <= MAX_BYTES
  }

  // ---- The requests ----

  function Live(pages: Pages, now: int): Pages {
    map k | k in pages && pages[k].expires > now :: pages[k]
  }

  predicate Matches(p: Page, q: Query, c: Cursor, limit: nat)
    requires limit > 0
  {
    p.query == q && p.expires == c.expires && 0 < c.offset < |p.values| && c.offset % limit == 0
  }

  /** The first page; time is when the list was taken, now when it is frozen. */
  ghost function Listed(pages: Pages, q: Query, values: seq<Row>, bytes: nat, time: int, now: int, limit: nat,
          key: Key): (Pages, Reply)
    requires limit > 0
  {
    if |values| <= limit then (pages, Rows(values, None))
    else
      var live := Live(pages, now);
      if |live| >= MAX_PAGES || bytes + Total(live) > MAX_BYTES then (live, Full)
      else
        (live[key := Page(q, time + LIFETIME_MS, values, bytes)],
         Rows(values[..limit], Some(Cursor(key, time + LIFETIME_MS, limit))))
  }

  /** A later page. */
  function Continued(pages: Pages, q: Query, c: Cursor, now: int, limit: nat): Reply
    requires limit > 0
  {
    if c.expires <= now || c.key !in pages then Gone
    else if !Matches(pages[c.key], q, c, limit) then Mismatch
    else
      var p := pages[c.key];
      var end := if c.offset + limit < |p.values| then c.offset + limit else |p.values|;
      Rows(p.values[c.offset..end], if end < |p.values| then Some(Cursor(c.key, c.expires, end)) else None)
  }

  /** A reader gives up a traversal; only its own, unexpired one is removed. */
  function Released(pages: Pages, q: Query, c: Cursor, now: int, limit: nat): Pages
    requires limit > 0
  {
    if c.offset == 0 || c.offset % limit != 0 || c.key !in pages || !Matches(pages[c.key], q, c, limit)
      || c.expires <= now
    then pages else pages - {c.key}
  }

  lemma ListedOk(pages: Pages, q: Query, values: seq<Row>, bytes: nat, time: int, now: int, limit: nat, key: Key)
    requires CacheOk(pages) && limit > 0 && key !in pages
    ensures CacheOk(Listed(pages, q, values, bytes, time, now, limit, key).0)
  {
    var live := Live(pages, now);
    TotalSubset(pages, live);
    if |live| < MAX_PAGES && bytes + Total(live) <= MAX_BYTES {
      TotalInsert(live, key, Page(q, time + LIFETIME_MS, values, bytes));
      InsertSize(live, key, Page(q, time + LIFETIME_MS, values, bytes));
    }
    hide Total, Live;
  }

  lemma InsertSize(pages: Pages, k: Key, p: Page)
    requires k !in pages
    ensures |pages[k := p]| == |pages| + 1
  {
    assert pages[k := p].Keys == pages.Keys + {k};
  }

  lemma ReleasedOk(pages: Pages, q: Query, c: Cursor, now: int, limit: nat)
    requires CacheOk(pages) && limit > 0
    ensures CacheOk(Released(pages, q, c, now, limit))
  {
    TotalSubset(pages, Released(pages, q, c, now, limit));
  }

  /** What one request may do to the cache: pages frozen before are unchanged or gone. */
  ghost predicate Keeps(before: Pages, after: Pages, unused: Key) {
    forall k :: k in after && k < unused ==> k in before && after[k] == before[k]
  }

  lemma ReleasedKeeps(before: Pages, pages: Pages, unused: Key, q: Query, c: Cursor, now: int, limit: nat)
    requires Keeps(before, pages, unused) && limit > 0
    ensures Keeps(before, Released(pages, q, c, now, limit), unused)
  {
    hide Matches;
  }

  lemma ListedKeeps(before: Pages, pages: Pages, unused: Key, q: Query, values: seq<Row>, bytes: nat, time: int,
          now: int, limit: nat, key: Key)
    requires Keeps(before, pages, unused) && limit > 0 && unused <= key
    ensures var (pages', reply) := Listed(pages, q, values, bytes, time, now, limit, key);
      Keeps(before, pages', unused) && (reply.Rows? ==> FirstPage(reply, values, limit, pages', unused, key + 1))
  {
    hide Total;
  }

  // ---- The cache as the server keeps it ----

  /** What other readers do in between. */
  datatype Other =
    | OtherList(q: Query, values: seq<Row>, bytes: nat, time: int, now: int, limit: nat)
    | OtherRelease(q: Query, c: Cursor, now: int, limit: nat)

  /** One request of a reader as it turns out: what happened before it, the list at that moment, and
      whether the request budget or the network got in the way. */
  datatype Turn = Turn(before: seq<Other>, values: seq<Row>, bytes: nat, time: int, now: int, refusal: Option<nat>,
    lost: bool)

  datatype Answer = Answered(reply: Reply) | TooMany(retryAfter: nat) | Lost

  /** When a request gets no page at all: a full cache asks for no delay. */
  predicate Sent(answer: Answer, turn: Turn) {
    && (answer.Lost? <==> turn.lost)
    && (!turn.lost && turn.refusal.Some? ==> answer == TooMany(turn.refusal.value))
    && (answer.TooMany? && turn.refusal.None? ==> answer.retryAfter == 0)
  }

  class Cache {
    var pages: Pages
    var unused: Key

    ghost predicate Valid()
      reads this
    {
      CacheOk(pages) && forall k :: k in pages ==> k < unused
    }

    constructor ()
      ensures Valid() && pages == map[]
    {
      pages, unused := map[], 0;
    }

    static method Sum(pages: Pages) returns (total: nat)
      ensures total == Total(pages)
    {
      total := 0;
      var rest := pages;
      while rest != map[]
        invariant total + Total(rest) == Total(pages)
        decreases |rest|
      {
        assert rest.Keys != {};
        var k :| k in rest.Keys;
        TotalWithout(rest, k);
        assert (rest - {k}).Keys == rest.Keys - {k};
        total, rest := total + rest[k].bytes, rest - {k};
      }
    }

    /** list_response; unused stands for a fresh UUID. */
    method List(q: Query, values: seq<Row>, bytes: nat, time: int, now: int, limit: nat) returns (reply: Reply)
      requires Valid() && limit > 0
      modifies this
      ensures Valid() && unused == old(unused) + 1
      ensures (pages, reply) == Listed(old(pages), q, values, bytes, time, now, limit, old(unused))
    {
      ListedOk(pages, q, values, bytes, time, now, limit, unused);
      hide CacheOk;
      var key := unused;
      unused := unused + 1;
      if |values| <= limit {
        return Rows(values, None);
      }
      pages := Live(pages, now);
      var held := Sum(pages);
      if |pages| >= MAX_PAGES || bytes + held > MAX_BYTES {
        return Full;
      }
      var expires := time + LIFETIME_MS;
      pages := pages[key := Page(q, expires, values, bytes)];
      return Rows(values[..limit], Some(Cursor(key, expires, limit)));
    }

    /** page */
    method Continue(q: Query, c: Cursor, now: int, limit: nat) returns (reply: Reply)
      requires limit > 0
      ensures reply == Continued(pages, q, c, now, limit)
    {
      if c.expires <= now || c.key !in pages {
        return Gone;
      }
      var page := pages[c.key];
      if !Matches(page, q, c, limit) {
        return Mismatch;
      }
      var end := if c.offset + limit <= |page.values| then c.offset + limit else |page.values|;
      var next := if end < |page.values| then Some(Cursor(c.key, c.expires, end)) else None;
      return Rows(page.values[c.offset..end], next);
    }

    /** release_cursor; false refuses the whole request. */
    method Release(q: Query, c: Cursor, now: int, limit: nat) returns (ok: bool)
      requires Valid() && limit > 0
      modifies this`pages
      ensures Valid()
      ensures pages == Released(old(pages), q, c, now, limit)
      ensures ok <==>
        && 0 < c.offset && c.offset % limit == 0
        && (c.key in old(pages) ==> Matches(old(pages)[c.key], q, c, limit))
    {
      ReleasedOk(pages, q, c, now, limit);
      hide CacheOk;
      if c.offset == 0 || c.offset % limit != 0 {
        return false;
      }
      if c.key !in pages {
        return true;
      }
      if !Matches(pages[c.key], q, c, limit) {
        return false;
      }
      if c.expires > now {
        pages := pages - {c.key};
      }
      return true;
    }

    /** Everybody else's requests. */
    method Interleave(others: seq<Other>)
      requires Valid()
      modifies this
      ensures Valid() && unused >= old(unused) && Keeps(old(pages), pages, old(unused))
    {
      hide CacheOk;
      for i := 0 to |others|
        invariant Valid() && unused >= old(unused) && Keeps(old(pages), pages, old(unused))
      {
        var o := others[i];
        if o.limit > 0 {
          if o.OtherList? {
            var _ := List(o.q, o.values, o.bytes, o.time, o.now, o.limit);
          } else {
            var _ := Release(o.q, o.c, o.now, o.limit);
          }
        }
      }
    }

    /** One request of one reader. */
    method Serve(turn: Turn, q: Query, cursor: Option<Cursor>, release: Option<Cursor>, limit: nat)
      returns (answer: Answer)
      requires Valid() && limit > 0
      modifies this
      ensures Valid() && unused >= old(unused) && Keeps(old(pages), pages, old(unused))
      ensures answer.Answered? && answer.reply.Rows? && cursor.None? ==>
        FirstPage(answer.reply, turn.values, limit, pages, old(unused), unused)
      ensures answer.Answered? && cursor.Some? ==> answer.reply == Continued(pages, q, cursor.value, turn.now, limit)
      ensures Sent(answer, turn)
    {
      hide CacheOk, Continued, Listed, Released, Keeps, FirstPage;
      Interleave(turn.before);
      ghost var met := pages;
      if turn.lost {
        return Lost;
      }
      if turn.refusal.Some? {
        return TooMany(turn.refusal.value);
      }
      if cursor.Some? {
        var reply := Continue(q, cursor.value, turn.now, limit);
        return Answered(reply);
      }
      if release.Some? {
        ReleasedKeeps(old(pages), met, old(unused), q, release.value, turn.now, limit);
        var ok := Release(q, release.value, turn.now, limit);
        if !ok {
          return Answered(Mismatch);
        }
      }
      ListedKeeps(old(pages), pages, old(unused), q, turn.values, turn.bytes, turn.time, turn.now, limit, unused);
      var reply := List(q, turn.values, turn.bytes, turn.time, turn.now, limit);
      if reply.Full? {
        return TooMany(0);
      }
      return Answered(reply);
    }
  }

  /** A first page: the whole list if it is short, otherwise its beginning, with the list frozen. */
  ghost predicate FirstPage(reply: Reply, values: seq<Row>, limit: nat, pages: Pages, before: Key, unused: Key)
    requires reply.Rows?
  {
    if reply.next.None? then reply.rows == values
    else
      var c := reply.next.value;
      && limit < |values| && reply.rows == values[..limit] && c.offset == limit
      && before <= c.key < unused && c.key in pages && pages[c.key].values == values
  }
}
