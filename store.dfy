/** MySQLStore: the session store of lib/connect-mysql.js. Each evaluation
    of the module's factory yields a constructor with its own `DELETE_FREQ`,
    shared by every store that constructor builds (StoreModule); each store
    keeps its two cleanup flags and talks to one database client, whose
    `Session` table it reads and writes (Database). */
module ConnectMysql {
  import opened Wrappers
  import opened Js
  import opened SessionCodec
  import opened SessionTable

  /** The options object given to the constructor, as its own properties. */
  type Options = map<string, JsValue>

  /** The initial value of `DELETE_FREQ`. */
  const DefaultFreq: JsValue := Num(20)

  // -------------------------------------------------------------------------
  // Option resolution

  /** The value `isCleanup` ends with: a `sqlCleanup` property overrides
      everything, otherwise a `cleanup` property is taken as given, and the
      default is true. */
  function CleanupFlag(options: Options): JsValue {
    if "sqlCleanup" in options then Bool(false)
    else if "cleanup" in options then options["cleanup"]
    else Bool(true)
  }

  /** The value `isSqlCleanup` ends with: the `sqlCleanup` property as given,
      true when there is none. */
  function SqlCleanupFlag(options: Options): JsValue {
    if "sqlCleanup" in options then options["sqlCleanup"] else Bool(true)
  }

  /** The guard `options.freq && !isNaN(options.freq)`. */
  predicate FreqAccepted(v: JsValue) {
    Truthy(v) && !IsNaN(v)
  }

  /** `DELETE_FREQ` after a construction with `options`, `previous` before. */
  function NextFreq(options: Options, previous: JsValue): JsValue {
    var f := Property(options, "freq");
    if FreqAccepted(f) then f else previous
  }

  // -------------------------------------------------------------------------
  // The sampled sweep in `get`

  /** Client-side sampling is on when `isCleanup` is truthy and
      `isSqlCleanup` is not. */
  predicate SamplingMode(isCleanup: JsValue, isSqlCleanup: JsValue) {
    Truthy(isCleanup) && !Truthy(isSqlCleanup)
  }

  /** The values `Math.floor(Math.random() * (freq + 1))` can take, with
      `Math.random()` ranging over [0, 1): for a width k = Number(freq + 1),
      [0, k - 1] when k is positive, 0 when k is zero, [k, 0] when k is
      negative, and no integer at all when k is NaN. */
  predicate PossibleDraw(freq: JsValue, draw: int) {
    match ToNumber(PlusOne(freq))
    case None => false
    case Some(k) =>
      if k > 0 then 0 <= draw < k
      else if k == 0 then draw == 0
      else k <= draw <= 0
  }

  /** The test at the top of `get`; `===` holds only between a number and
      the same number. */
  predicate SweepTriggered(isCleanup: JsValue, isSqlCleanup: JsValue, freq: JsValue, draw: int) {
    SamplingMode(isCleanup, isSqlCleanup) && freq == Num(draw)
  }

  // -------------------------------------------------------------------------
  // Row derivation in `set`

  /** The `user` column: `passport.user` when that is truthy, NULL otherwise,
      so user id 0 is stored as NULL. */
  function UserColumn(session: Session): (user: Option<int>)
    requires session.passport.Some?
    ensures user.Some? <==> session.passport.value.user.Some? && session.passport.value.user.value != 0
    ensures user.Some? ==> user == session.passport.value.user
  {
    match session.passport.value.user
    case Some(u) => if Truthy(Num(u)) then Some(u) else None
    case None => None
  }

  // -------------------------------------------------------------------------
  // State

  /** The module-level state of one evaluation of the factory. */
  class StoreModule {
    var deleteFreq: JsValue

    /** The shared frequency passes the guard of line 38; it starts at 20
        and is only ever replaced by a value that passes it. */
    predicate Valid()
      reads this
    {
      FreqAccepted(deleteFreq)
    }

    constructor ()
      ensures deleteFreq == DefaultFreq && Valid()
    {
      deleteFreq := DefaultFreq;
    }
  }

  /** The database behind one client: the `Session` table, and whether
      the `sess_cleanup` event is registered with the event scheduler
      switched on. Both persist in the database, so a new client may find
      rows and the event left by earlier runs. */
  class Database {
    var table: Table
    var cleanupEvent: bool

    constructor (initial: Table, eventRegistered: bool)
      ensures table == initial && cleanupEvent == eventRegistered
    {
      table := initial;
      cleanupEvent := eventRegistered;
    }

    /** One run of the `sess_cleanup` event, at database time `now`. */
    method RunCleanupEvent(now: int)
      requires cleanupEvent
      modifies this`table
      ensures table == Sweep(old(table), now)
    {
      table := Sweep(table, now);
    }
  }

  class MySQLStore {
    var isCleanup: JsValue
    var isSqlCleanup: JsValue
    const shared: StoreModule
    const mysql: Database

    /** `new MySQLStore(options)`, with `options.client` passed as `client`:
        resolves the flags in the source's order, may replace the shared
        `DELETE_FREQ`, and registers the SQL cleanup event when
        `isSqlCleanup` ends truthy. */
    constructor (options: Options, client: Database, shared: StoreModule)
      requires shared.Valid()
      modifies shared, client`cleanupEvent
      ensures this.shared == shared && mysql == client && shared.Valid()
      ensures isCleanup == CleanupFlag(options) && isSqlCleanup == SqlCleanupFlag(options)
      ensures shared.deleteFreq == NextFreq(options, old(shared.deleteFreq))
      ensures client.cleanupEvent == (old(client.cleanupEvent) || Truthy(isSqlCleanup))
    {
      isCleanup := Bool(true);
      isSqlCleanup := Bool(true);
      if "cleanup" in options {
        isCleanup := options["cleanup"];
      }
      if "sqlCleanup" in options {
        isCleanup := Bool(false);
        isSqlCleanup := options["sqlCleanup"];
      }
      this.shared := shared;
      mysql := client;
      new;
      var freq := Property(options, "freq");
      if Truthy(freq) && !IsNaN(freq) {
        shared.deleteFreq := freq;
      }
      assert shared.deleteFreq == NextFreq(options, old(shared.deleteFreq));
      if Truthy(isSqlCleanup) {
        client.cleanupEvent := true;
      }
    }

    /** `cleanup()`, at database time `now`. */
    method Cleanup(now: int)
      modifies mysql`table
      ensures mysql.table == Sweep(old(mysql.table), now)
    {
      mysql.table := Sweep(mysql.table, now);
    }

    /** `get(sid)`, with `draw` standing for the random draw and `now` for
        the database time of a sweep it may run first. */
    method Get(sid: string, draw: int, now: int) returns (reply: Reply)
      requires shared.Valid() && PossibleDraw(shared.deleteFreq, draw)
      modifies mysql`table
      ensures mysql.table ==
        if SweepTriggered(isCleanup, isSqlCleanup, shared.deleteFreq, draw)
        then Sweep(old(mysql.table), now) else old(mysql.table)
      ensures reply == Lookup(mysql.table, sid)
    {
      if Truthy(isCleanup) && !Truthy(isSqlCleanup) && shared.deleteFreq == Num(draw) {
        Cleanup(now);
      }
      var t := mysql.table;
      if sid in t && t[sid].session != "" {
        match Parse(t[sid].session)
        case Some(s) => reply := Found(s);
        case None => reply := Malformed(t[sid].session);
      } else {
        reply := Absent;
      }
    }

    /** `set(sid, session)` at database time `now`; the source throws when
        the session has no passport. */
    method Set(sid: string, session: Session, now: int)
      requires session.passport.Some?
      modifies mysql`table
      ensures mysql.table ==
        Upsert(old(mysql.table), sid, Serialize(session), Some(session.cookie.expires), UserColumn(session), now)
    {
      var expires := session.cookie.expires;
      var user := UserColumn(session);
      var text := Serialize(session);
      mysql.table := Upsert(mysql.table, sid, text, Some(expires), user, now);
    }

    /** `destroy(sid)`. */
    method Destroy(sid: string)
      modifies mysql`table
      ensures mysql.table == Delete(old(mysql.table), sid)
    {
      mysql.table := Delete(mysql.table, sid);
    }
  }
}
