/** What the store's option handling, sampling test and statements imply
    together: the configuration rules, the reach of the sampled sweep, and
    the round trips between `set`, `get` and `destroy`. */
module StoreProperties {
  import opened Wrappers
  import opened Decimal
  import opened Js
  import opened SessionCodec
  import opened SessionTable
  import opened ConnectMysql

  // -------------------------------------------------------------------------
  // Configuration

  /** With an options object holding no property but `client`, both flags
      are true and the frequency stays 20. */
  lemma DefaultConfiguration()
    ensures CleanupFlag(map[]) == Bool(true) && SqlCleanupFlag(map[]) == Bool(true)
    ensures NextFreq(map[], DefaultFreq) == Num(20)
  {
  }

  /** A `sqlCleanup` property, whatever its value, turns `isCleanup` off
      and becomes `isSqlCleanup`; a falsy one therefore turns off both the
      SQL event and the sampled sweep. */
  lemma SqlCleanupPrecedence(options: Options)
    requires "sqlCleanup" in options
    ensures CleanupFlag(options) == Bool(false)
    ensures SqlCleanupFlag(options) == options["sqlCleanup"]
    ensures !Truthy(options["sqlCleanup"]) ==>
      !Truthy(SqlCleanupFlag(options)) && !SamplingMode(CleanupFlag(options), SqlCleanupFlag(options))
  {
  }

  /** Without `sqlCleanup`, a `cleanup` property is taken as given and SQL
      cleanup stays on. */
  lemma CleanupOptionAlone(options: Options)
    requires "sqlCleanup" !in options && "cleanup" in options
    ensures CleanupFlag(options) == options["cleanup"] && SqlCleanupFlag(options) == Bool(true)
  {
  }

  /** No options object puts a new store in sampling mode: without a
      `sqlCleanup` property `isSqlCleanup` stays true, and with one
      `isCleanup` is false. So right after construction `get` never runs
      the sampled sweep; only a later assignment to the flags could. */
  lemma NoOptionsEnableSampling(options: Options)
    ensures !SamplingMode(CleanupFlag(options), SqlCleanupFlag(options))
  {
  }

  /** `freq` replaces the shared frequency when it is a non-zero number,
      and is ignored when absent, zero, null, undefined, NaN, false or the
      empty string. */
  lemma FreqOption(options: Options, previous: JsValue)
    ensures "freq" !in options ==> NextFreq(options, previous) == previous
    ensures "freq" in options && options["freq"].Num? ==>
      NextFreq(options, previous) == if options["freq"].n != 0 then options["freq"] else previous
    ensures "freq" in options && options["freq"] in {Null, Undefined, NaN, Bool(false), Str("")} ==>
      NextFreq(options, previous) == previous
  {
  }

  /** Exactly the non-zero numbers, `true` and the non-empty numerals pass
      the guard; null, false, 0, "", undefined and NaN are falsy, and other
      strings are NaN. */
  lemma AcceptedFreqs(freq: JsValue)
    ensures FreqAccepted(freq) <==>
      (freq.Num? && freq.n != 0) || freq == Bool(true) || (freq.Str? && freq.s != "" && AllDigits(freq.s))
  {
  }

  /** The guard also lets `true` and numeric strings through. */
  lemma NonNumberFreqAccepted(previous: JsValue)
    ensures NextFreq(map["freq" := Bool(true)], previous) == Bool(true)
    ensures NextFreq(map["freq" := Str("5")], previous) == Str("5")
  {
    assert AllDigits("5");
  }

  /** The shared frequency always passes the guard: it starts at 20 and is
      only ever replaced by a value that passes it. */
  lemma FreqStaysAccepted(options: Options, previous: JsValue)
    ensures FreqAccepted(DefaultFreq)
    ensures FreqAccepted(previous) ==> FreqAccepted(NextFreq(options, previous))
  {
  }

  // -------------------------------------------------------------------------
  // The sampled sweep

  /** Every frequency that passes the guard admits a draw (0 among them), so
      `get` can always be called. */
  lemma AcceptedFreqHasDraw(freq: JsValue)
    requires FreqAccepted(freq)
    ensures PossibleDraw(freq, 0)
  {
    if freq.Str? {
      var s := freq.s + "1";
      assert AllDigits(s) by {
        forall i | 0 <= i < |s| ensures IsDigit(s[i]) {
          if i < |freq.s| { assert s[i] == freq.s[i]; }
        }
      }
    }
  }

  /** With a number n >= 0 as frequency the draw ranges over the n + 1
      values 0..n, and in sampling mode exactly one of them, n, sweeps. */
  lemma SamplingOdds(n: int, isCleanup: JsValue, isSqlCleanup: JsValue, draw: int)
    requires n >= 0 && SamplingMode(isCleanup, isSqlCleanup)
    ensures PossibleDraw(Num(n), draw) <==> 0 <= draw <= n
    ensures PossibleDraw(Num(n), draw) && SweepTriggered(isCleanup, isSqlCleanup, Num(n), draw) <==> draw == n
  {
  }

  /** Outside sampling mode `get` never sweeps. */
  lemma NoSweepOutsideSampling(isCleanup: JsValue, isSqlCleanup: JsValue, freq: JsValue, draw: int)
    requires !SamplingMode(isCleanup, isSqlCleanup)
    ensures !SweepTriggered(isCleanup, isSqlCleanup, freq, draw)
  {
  }

  /** A negative frequency never sweeps: every possible draw lies above it. */
  lemma NegativeFreqNeverSweeps(n: int, isCleanup: JsValue, isSqlCleanup: JsValue, draw: int)
    requires n < 0 && PossibleDraw(Num(n), draw)
    ensures draw > n && !SweepTriggered(isCleanup, isSqlCleanup, Num(n), draw)
  {
  }

  /** A frequency that is not a number never sweeps, since a draw is a
      number and `===` does not convert. */
  lemma NonNumberFreqNeverSweeps(freq: JsValue, isCleanup: JsValue, isSqlCleanup: JsValue, draw: int)
    requires !freq.Num?
    ensures !SweepTriggered(isCleanup, isSqlCleanup, freq, draw)
  {
  }

  /** With `"5"` as frequency, `"5" + 1` is `"51"`: draws range over 0..50
      and none of them is the string. */
  lemma NumericStringFreqWidth(isCleanup: JsValue, isSqlCleanup: JsValue, draw: int)
    ensures ToNumber(PlusOne(Str("5"))) == Some(51)
    ensures PossibleDraw(Str("5"), draw) <==> 0 <= draw <= 50
    ensures !SweepTriggered(isCleanup, isSqlCleanup, Str("5"), draw)
  {
    assert "51"[..1] == "5";
    assert AllDigits("51");
  }

  // -------------------------------------------------------------------------
  // set / get / destroy

  /** After `set`, looking up that sid yields the session that was set. */
  lemma SetThenGet(t: Table, sid: string, session: Session, now: int)
    requires session.passport.Some?
    ensures Lookup(Upsert(t, sid, Serialize(session), Some(session.cookie.expires), UserColumn(session), now), sid)
            == Found(session)
  {
    ParseSerialize(session);
  }

  /** `set` of one sid does not change what `get` yields for another. */
  lemma SetLeavesOtherSids(t: Table, sid: string, other: string, session: Session, now: int)
    requires session.passport.Some? && other != sid
    ensures Lookup(Upsert(t, sid, Serialize(session), Some(session.cookie.expires), UserColumn(session), now), other)
            == Lookup(t, other)
  {
  }

  /** `destroy` of one sid does not change what `get` yields for another. */
  lemma DestroyLeavesOtherSids(t: Table, sid: string, other: string)
    requires other != sid
    ensures Lookup(Delete(t, sid), other) == Lookup(t, other)
  {
  }

  /** A row whose cookie has expired is still returned until a sweep
      removes it: `get` itself does not look at `expires`. */
  lemma ExpiredRowStillFound(t: Table, sid: string, session: Session, now: int, later: int)
    requires session.passport.Some? && session.cookie.expires < later
    ensures Lookup(Upsert(t, sid, Serialize(session), Some(session.cookie.expires), UserColumn(session), now), sid)
            == Found(session)
    ensures sid !in Sweep(Upsert(t, sid, Serialize(session), Some(session.cookie.expires), UserColumn(session), now), later)
  {
    SetThenGet(t, sid, session, now);
  }

  // -------------------------------------------------------------------------
  // Clients of the store

  /** `set` then `get` on one store returns the session, unless the sampled
      sweep fires in `get` after the cookie has expired. */
  method SetThenGetOnStore(store: MySQLStore, sid: string, session: Session, setTime: int, draw: int, getTime: int)
    returns (reply: Reply)
    requires session.passport.Some? && store.shared.Valid() && PossibleDraw(store.shared.deleteFreq, draw)
    modifies store.mysql`table
    ensures reply ==
      if SweepTriggered(store.isCleanup, store.isSqlCleanup, store.shared.deleteFreq, draw)
         && session.cookie.expires < getTime
      then Absent else Found(session)
  {
    store.Set(sid, session, setTime);
    SetThenGet(old(store.mysql.table), sid, session, setTime);
    reply := store.Get(sid, draw, getTime);
  }

  /** After `destroy`, `get` finds nothing, whatever the draw. */
  method DestroyThenGetOnStore(store: MySQLStore, sid: string, draw: int, now: int) returns (reply: Reply)
    requires store.shared.Valid() && PossibleDraw(store.shared.deleteFreq, draw)
    modifies store.mysql`table
    ensures reply == Absent
  {
    store.Destroy(sid);
    reply := store.Get(sid, draw, now);
  }

  /** `get` can be called on every store: the draw 0 is always possible. */
  method GetWithDrawZero(store: MySQLStore, sid: string, now: int) returns (reply: Reply)
    requires store.shared.Valid()
    modifies store.mysql`table
    ensures store.mysql.table ==
      if SweepTriggered(store.isCleanup, store.isSqlCleanup, store.shared.deleteFreq, 0)
      then Sweep(old(store.mysql.table), now) else old(store.mysql.table)
    ensures reply == Lookup(store.mysql.table, sid)
  {
    AcceptedFreqHasDraw(store.shared.deleteFreq);
    reply := store.Get(sid, 0, now);
  }

  /** Two stores built by one factory share `DELETE_FREQ`: constructing the
      second changes the frequency the first one samples with. */
  method LaterStoreRetunesEarlier(client: Database, first: Options, second: Options)
    returns (a: MySQLStore, b: MySQLStore)
    modifies client`cleanupEvent
    ensures a.shared == b.shared
    ensures a.shared.deleteFreq == NextFreq(second, NextFreq(first, DefaultFreq))
  {
    var shared := new StoreModule();
    a := new MySQLStore(first, client, shared);
    b := new MySQLStore(second, client, shared);
  }
}
