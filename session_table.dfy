/** The `Session` table and the effect on it of each SQL statement the
    store issues. The table is keyed by `sid` (its primary key), so it is a
    map from session id to the rest of the row. */
module SessionTable {
  import opened Wrappers
  import opened SessionCodec

  /** A row of `Session` without its key. `expires` and `user` are nullable
      columns; `created` is the insertion time in epoch seconds. */
  datatype Row = Row(session: string, expires: Option<int>, user: Option<int>, created: int)

  type Table = map<string, Row>

  /** The SQL condition `expires < now`: unknown, hence not satisfied, when
      `expires` is NULL. */
  predicate Expired(row: Row, now: int) {
    row.expires.Some? && row.expires.value < now
  }

  /** `INSERT INTO Session (sid, session, expires, user) VALUES (...)
      ON DUPLICATE KEY UPDATE session = ?, expires = ?, user = ?` at time
      `now`: a new row takes `created` from the clock, an existing row keeps
      its own. */
  function Upsert(t: Table, sid: string, session: string, expires: Option<int>, user: Option<int>, now: int): (r: Table)
    ensures r.Keys == t.Keys + {sid}
    ensures r[sid].session == session && r[sid].expires == expires && r[sid].user == user
    ensures r[sid].created == if sid in t then t[sid].created else now
    ensures forall k :: k in t && k != sid ==> r[k] == t[k]
  {
    var created := if sid in t then t[sid].created else now;
    t[sid := Row(session, expires, user, created)]
  }

  /** `DELETE FROM Session WHERE sid = ?`. */
  function Delete(t: Table, sid: string): (r: Table)
    ensures r.Keys == t.Keys - {sid}
    ensures forall k :: k in r ==> r[k] == t[k]
  {
    t - {sid}
  }

  /** `DELETE FROM Session WHERE expires < UNIX_TIMESTAMP()`, the database
      clock reading `now`. */
  function Sweep(t: Table, now: int): (r: Table)
    ensures forall k :: k in r <==> k in t && !Expired(t[k], now)
    ensures forall k :: k in r ==> r[k] == t[k]
  {
    map k | k in t && !Expired(t[k], now) :: t[k]
  }

  /** Sweeping a second time at the same clock reading removes nothing more. */
  lemma SweepIdempotent(t: Table, now: int)
    ensures Sweep(Sweep(t, now), now) == Sweep(t, now)
  {
    var once := Sweep(t, now);
    assert Sweep(once, now).Keys == once.Keys;
  }

  /** A sweep at a later clock reading keeps fewer rows, and rows whose
      `expires` is NULL survive every sweep. */
  lemma SweepMonotone(t: Table, earlier: int, later: int)
    requires earlier <= later
    ensures Sweep(t, later).Keys <= Sweep(t, earlier).Keys
    ensures forall k :: k in t && t[k].expires.None? ==> k in Sweep(t, later)
  {
  }

  /** Three rows expiring 100 seconds ago, in 100 seconds and never: a sweep
      removes the first only. */
  lemma SweepThreeRows(now: int, a: Row, b: Row, c: Row)
    requires a.expires == Some(now - 100) && b.expires == Some(now + 100) && c.expires == None
    ensures Sweep(map["a" := a, "b" := b, "c" := c], now) == map["b" := b, "c" := c]
  {
    var t := map["a" := a, "b" := b, "c" := c];
    assert Sweep(t, now).Keys == {"b", "c"};
  }

  /** A second upsert of one sid overwrites the first's columns and keeps the
      `created` time of the first insert. */
  lemma UpsertTwice(t: Table, sid: string, s1: string, e1: Option<int>, u1: Option<int>, now1: int,
                    s2: string, e2: Option<int>, u2: Option<int>, now2: int)
    ensures Upsert(Upsert(t, sid, s1, e1, u1, now1), sid, s2, e2, u2, now2) == Upsert(t, sid, s2, e2, u2, now1)
  {
  }

  /** Deleting a sid that has no row leaves the table as it is. */
  lemma DeleteAbsent(t: Table, sid: string)
    requires sid !in t
    ensures Delete(t, sid) == t
  {
  }

  /** What `get` hands to its callback. */
  datatype Reply =
    | Found(session: Session)  // a row with a non-empty `session` text, parsed
    | Absent                   // no row, or an empty `session` text: no error, no session
    | Malformed(text: string)  // a non-empty text that does not parse: JSON.parse throws

  /** `SELECT session FROM Session WHERE sid = ?`, then the test that a row
      came back with a truthy (non-empty) `session`, then its parse. */
  function Lookup(t: Table, sid: string): (reply: Reply)
    ensures reply.Absent? <==> sid !in t || t[sid].session == ""
    ensures reply.Found? ==> sid in t && Parse(t[sid].session) == Some(reply.session)
    ensures reply.Malformed? ==> sid in t && reply.text == t[sid].session && Parse(reply.text) == None
  {
    if sid in t && t[sid].session != "" then
      match Parse(t[sid].session)
      case Some(s) => Found(s)
      case None => Malformed(t[sid].session)
    else Absent
  }

  /** A lookup ignores every row but its own. */
  lemma LookupLocal(t: Table, t': Table, sid: string)
    requires sid in t <==> sid in t'
    requires sid in t ==> t[sid].session == t'[sid].session
    ensures Lookup(t, sid) == Lookup(t', sid)
  {
  }

  /** After a delete, a lookup of that sid finds nothing. */
  lemma LookupAfterDelete(t: Table, sid: string)
    ensures Lookup(Delete(t, sid), sid) == Absent
  {
  }
}
