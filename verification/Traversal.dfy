/**
 The console's traversal of a paginated collection (web/js/api.js:55-74) against the server's frozen
 pages: all of one list, or an error, and always an end.
 */
module Traversal {
  import opened Wrappers
  import opened PageCache

  const LIMIT: nat := 500
  const MAX_RETRIES: nat := 3
  const MAX_WAIT: nat := 30

  datatype Failure = ServerError | Overloaded | Repeated

  /** The server was reached and asked for no more than half a minute. */
  predicate Waited(turn: Turn) {
    !turn.lost && (turn.refusal.Some? ==> turn.refusal.value <= 30)
  }

  class ApiClient {
    var snapshots: map<Query, Cursor>

    constructor ()
      ensures snapshots == map[]
    {
      snapshots := map[];
    }

    /** get, with the release of the previous snapshot of the same first page. */
    method Get(s: Cache, turn: Turn, q: Query, cursor: Option<Cursor>, releasePrevious: bool) returns (answer: Answer)
      requires s.Valid()
      modifies s, this
      ensures s.Valid() && s.unused >= old(s.unused) && Keeps(old(s.pages), s.pages, old(s.unused))
      ensures answer.Answered? && answer.reply.Rows? && cursor.None? ==>
        FirstPage(answer.reply, turn.values, LIMIT, s.pages, old(s.unused), s.unused)
      ensures answer.Answered? && cursor.Some? ==> answer.reply == Continued(s.pages, q, cursor.value, turn.now, LIMIT)
      ensures Sent(answer, turn)
    {
      var release := if releasePrevious && q in snapshots then Some(snapshots[q]) else None;
      answer := s.Serve(turn, q, cursor, release, LIMIT);
      if releasePrevious && answer.Answered? && answer.reply.Rows? {
        if answer.reply.next.Some? {
          snapshots := snapshots[q := answer.reply.next.value];
        } else {
          snapshots := snapshots - {q};
        }
      }
    }

    /** One page, asked for up to four times; turn t is the first attempt. */
    method Fetch(s: Cache, turns: nat -> Turn, t: nat, q: Query, cursor: Option<Cursor>, releasePrevious: bool)
      returns (r: Result<Reply, Failure>, t': nat)
      requires s.Valid()
      modifies s, this
      ensures t < t' <= t + 4
      ensures s.Valid() && s.unused >= old(s.unused) && Keeps(old(s.pages), s.pages, old(s.unused))
      ensures r.Ok? ==> r.value.Rows?
      ensures r.Ok? && cursor.None? ==>
        FirstPage(r.value, turns(t' - 1).values, 500, s.pages, old(s.unused), s.unused)
      ensures r.Ok? && cursor.Some? ==> r.value == Continued(s.pages, q, cursor.value, turns(t' - 1).now, 500)
      ensures forall k :: t <= k < t' - 1 ==> Waited(turns(k))
      ensures r == Err(Overloaded) ==> t' == t + 4 || !Waited(turns(t' - 1))
      ensures r.Err? ==> r.error != Repeated
    {
      hide FirstPage, Continued, Keeps, CacheOk;
      t' := t;
      var attempt := 0;
      KeepsItself(s.pages, s.unused);
      while true
        invariant t' == t + attempt && attempt <= MAX_RETRIES
        invariant forall k :: t <= k < t' ==> Waited(turns(k))
        invariant s.Valid() && s.unused >= old(s.unused) && Keeps(old(s.pages), s.pages, old(s.unused))
        decreases MAX_RETRIES - attempt
      {
        ghost var pages, unused := s.pages, s.unused;
        var answer := Get(s, turns(t'), q, cursor, releasePrevious);
        KeepsTransitive(old(s.pages), pages, s.pages, old(s.unused), unused);
        t' := t' + 1;
        match answer {
          case Answered(reply) =>
            if reply.Rows? {
              if cursor.None? {
                FirstPageLater(reply, turns(t' - 1).values, s.pages, old(s.unused), unused, s.unused);
              }
              return Ok(reply), t';
            }
            return Err(ServerError), t';
          case TooMany(retryAfter) =>
            if attempt >= MAX_RETRIES || retryAfter > MAX_WAIT {
              return Err(Overloaded), t';
            }
          case Lost => return Err(ServerError), t';
        }
        attempt := attempt + 1;
      }
    }

    /** all: everything, or an error.  What is returned is exactly one list, the one that first answered
        the first request, each row once and in order; the server never repeats a cursor. */
    method All(s: Cache, turns: nat -> Turn, q: Query, releasePrevious: bool)
      returns (r: Result<seq<Row>, Failure>, ghost frozen: nat, t: nat)
      requires s.Valid()
      modifies s, this
      ensures s.Valid()
      ensures r.Ok? ==> frozen <= 3 && r.value == turns(frozen).values
      ensures r.Err? ==> r.error != Repeated
    {
      hide FirstPage, Following, Continued, Keeps, CacheOk;
      var data: seq<Row> := [];
      var cursor: Option<Cursor> := None;
      var seen: set<Cursor> := {};
      t, frozen := 0, 0;
      ghost var list: seq<Row> := [];
      var reply: Result<Reply, Failure>;
      reply, t := Fetch(s, turns, t, q, None, releasePrevious);
      frozen := t - 1;
      list := turns(frozen).values;
      if reply.Err? {
        return Err(reply.error), frozen, t;
      }
      data, cursor := reply.value.rows, reply.value.next;
      FirstFollowing(reply.value, list, s.pages, old(s.unused), s.unused);
      while cursor.Some?
        invariant s.Valid()
        invariant cursor.Some? ==> Following(data, list, cursor.value, s.pages, s.unused)
        invariant cursor.None? ==> data == list
        invariant forall c :: c in seen ==> c.offset < |data|
        decreases |list| - |data|, cursor.Some?
      {
        ghost var pages, unused, at := s.pages, s.unused, cursor.value;
        FollowingOffset(data, list, at, pages, unused);
        if cursor.value in seen {
          return Err(Repeated), frozen, t;
        }
        seen := seen + {cursor.value};
        reply, t := Fetch(s, turns, t, q, cursor, false);
        if reply.Err? {
          return Err(reply.error), frozen, t;
        }
        FollowingStep(data, list, at, pages, unused, s.pages, s.unused, q, turns(t - 1).now);
        data, cursor := data + reply.value.rows, reply.value.next;
      }
      return Ok(data), frozen, t;
    }
  }

  lemma FirstPageLater(reply: Reply, values: seq<Row>, pages: Pages, before: Key, between: Key, unused: Key)
    requires reply.Rows? && FirstPage(reply, values, LIMIT, pages, between, unused) && before <= between
    ensures FirstPage(reply, values, LIMIT, pages, before, unused)
  {
  }

  lemma KeepsItself(pages: Pages, unused: Key)
    ensures Keeps(pages, pages, unused)
  {
  }

  lemma KeepsTransitive(a: Pages, b: Pages, c: Pages, unused: Key, between: Key)
    requires Keeps(a, b, unused) && Keeps(b, c, between) && unused <= between
    ensures Keeps(a, c, unused)
  {
  }

  /** How far a traversal has come: the next page starts where the data ends, and if its frozen list
      is still held it is the list being read. */
  ghost predicate Following(data: seq<Row>, list: seq<Row>, c: Cursor, pages: Pages, unused: Key) {
    && 0 < c.offset == |data| < |list| && data == list[..c.offset]
    && c.key < unused && (c.key in pages ==> pages[c.key].values == list)
  }

  lemma FirstFollowing(reply: Reply, list: seq<Row>, pages: Pages, before: Key, unused: Key)
    requires reply.Rows? && FirstPage(reply, list, LIMIT, pages, before, unused)
    ensures if reply.next.None? then reply.rows == list
      else Following(reply.rows, list, reply.next.value, pages, unused)
  {
  }

  lemma FollowingOffset(data: seq<Row>, list: seq<Row>, c: Cursor, pages: Pages, unused: Key)
    requires Following(data, list, c, pages, unused)
    ensures c.offset == |data| && |data| < |list|
  {
  }

  /** A further page continues the same list and makes progress. */
  lemma FollowingStep(data: seq<Row>, list: seq<Row>, c: Cursor, before: Pages, unused: Key, after: Pages,
          unused': Key, q: Query, now: int)
    requires Following(data, list, c, before, unused) && Keeps(before, after, unused) && unused <= unused'
    ensures var reply := Continued(after, q, c, now, LIMIT);
      reply.Rows? ==>
        && |data + reply.rows| > |data| && |data + reply.rows| <= |list|
        && (if reply.next.None? then data + reply.rows == list
            else Following(data + reply.rows, list, reply.next.value, after, unused'))
  {
    var reply := Continued(after, q, c, now, LIMIT);
    if reply.Rows? {
      assert after[c.key].values == list;
      var end := c.offset + |reply.rows|;
      assert data + reply.rows == list[..end];
    }
  }
}
