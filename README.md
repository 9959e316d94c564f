# connect-mysql session store, modelled in Dafny

`MySQLStore` (lib/connect-mysql.js) is a session store for the connect
session middleware. It keeps one row per session id in a MySQL table
`Session`. `set` writes a row with a single upsert, `get` reads it back,
`destroy` deletes it, and `cleanup` removes every row whose `expires` is in
the past. Expired rows are cleared in one of two ways. One is a sampled sweep
inside `get`, taken with probability about `1/(DELETE_FREQ + 1)`. The other
is a MySQL event registered at construction.

The model has six modules:

- `Wrappers`: the `Option` type. It stands for SQL NULL, a missing property
  and a failed parse.
- `Decimal`: decimal numerals. It writes and reads integers and proves that
  reading a written integer gives it back.
- `Js`: the JavaScript semantics the option handling relies on. It covers
  truthiness, `Number(...)`/`isNaN`, `v + 1` (string concatenation for
  strings) and own-property lookup. Option values are a `JsValue`, and the
  options object is a `map<string, JsValue>`, so `hasOwnProperty(k)` is
  `k in options`.
- `SessionCodec`: the session object restricted to the two fields the store
  reads (`cookie.expires` and `passport.user`). It gives a concrete
  JSON-shaped `Serialize`/`Parse` pair for the `session` column. The round
  trip `Parse(Serialize(s)) == Some(s)` is proved, not assumed.
- `SessionTable`: the `Session` table as a `map<string, Row>` keyed by `sid`.
  Each SQL statement the store sends is a function on that map. Lemmas cover
  sweeps, repeated upserts and lookups.
- `ConnectMysql`: the state. It has classes for this state:
  - `StoreModule` holds the module-level `DELETE_FREQ` of one evaluation of
    the exported factory. Every store built by that factory shares it.
  - `Database` stands for the client's database. It holds the table and
    whether the `sess_cleanup` event is registered.
  - `MySQLStore` has the fields `isCleanup` and `isSqlCleanup`. Its
    constructor resolves the options step by step, as the source does.
    `Get`, `Set`, `Destroy` and `Cleanup` update the shared table. Each one
    says exactly what the table becomes.

  It also holds the pure parts:
  - the option-resolution rules;
  - the range of the random draw;
  - the sweep trigger;
  - the derivation of the `user` column.
- `StoreProperties`: lemmas that combine the pieces, plus client methods
  that run operations one after another on a store.

Nondeterministic inputs are parameters. The random draw is
`draw`, the value `Math.floor(Math.random() * (DELETE_FREQ + 1))`, and its
possible range is given by `PossibleDraw`. The database clock is `now`. The
cookie's expiry date is an integer number of epoch seconds (`Cookie.expires`).

Facts the proofs turn up about the code as written:

- No options object puts a new store in sampling mode (`NoOptionsEnableSampling`).
  If `sqlCleanup` is missing, `isSqlCleanup` stays true. If it is present,
  `isCleanup` becomes false. So the sampled sweep at line 86 can run only if
  a caller assigns the flags after construction.
- The frequency guard at line 38 lets `true` and numeric strings such as
  `"5"` through (`NonNumberFreqAccepted`). With such a value, `DELETE_FREQ + 1`
  is `2` or `"51"`, and the strict `===` never matches a numeric draw, so the
  sampled sweep is switched off (`NonNumberFreqNeverSweeps`,
  `NumericStringFreqWidth`). A negative frequency switches it off as well
  (`NegativeFreqNeverSweeps`).
- `DELETE_FREQ` belongs to the module, not to the instance. Building a store
  changes the frequency of every store built earlier by the same factory
  (`LaterStoreRetunesEarlier`).

Two further points of lib/connect-mysql.js that the model follows:

- `user` is taken from `passport.user` only when that value is truthy
  (line 117), so a user id of 0 is stored as NULL.
- `expires` is `getTime() / 1000` (line 114), which is not rounded to whole
  seconds before it is bound into the statement.

## Model

| member | source | states |
|---|---|---|
| `Js.NumeralConverts` | lib/connect-mysql.js:38 | the numeric conversion behind `isNaN` turns every decimal numeral string into the number it writes |
| `Js.NumeralPlusOne` | lib/connect-mysql.js:86 | for a numeral string `s`, `s + 1` converts to ten times its value plus one, because `+` concatenates |
| `SessionCodec.Serialize` | lib/connect-mysql.js:121 | the JSON text of a session is non-empty (so `get`'s truthiness test passes) and starts with the cookie object |
| `SessionCodec.ParsePassportTail` | lib/connect-mysql.js:92 | the passport part of the text, with or without a user, parses back to that passport |
| `SessionCodec.ParseSerialize` | lib/connect-mysql.js:92 | parsing the text written for a session gives back exactly that session |
| `SessionTable.Upsert` | lib/connect-mysql.js:122-123 | the upsert leaves exactly one row for `sid` carrying the given session, expires and user; `created` is the old row's if one existed, else the insert time; every other row is unchanged and no other key appears |
| `SessionTable.Delete` | lib/connect-mysql.js:140 | the point delete removes the key `sid` and nothing else, and changes no remaining row |
| `SessionTable.Sweep` | lib/connect-mysql.js:67 | a row survives the sweep exactly when its `expires` is NULL or not below `now`; surviving rows are unchanged |
| `SessionTable.SweepIdempotent` | lib/connect-mysql.js:67 | sweeping twice at one time equals sweeping once |
| `SessionTable.SweepMonotone` | lib/connect-mysql.js:67 | a later sweep keeps a subset of what an earlier one keeps; rows with NULL `expires` always survive |
| `SessionTable.SweepThreeRows` | lib/connect-mysql.js:67 | rows expiring at now-100, now+100 and NULL: only the first is removed |
| `SessionTable.UpsertTwice` | lib/connect-mysql.js:122-123 | two upserts of one sid equal one upsert with the second call's columns and the first call's `created` |
| `SessionTable.DeleteAbsent` | lib/connect-mysql.js:140 | deleting an absent sid is a no-op |
| `SessionTable.Lookup` | lib/connect-mysql.js:90-95 | no session when there is no row or its text is empty; otherwise the parsed session, or a malformed-text fault when the text does not parse |
| `SessionTable.LookupLocal` | lib/connect-mysql.js:90 | a lookup depends only on the `session` text of its own row |
| `SessionTable.LookupAfterDelete` | lib/connect-mysql.js:139-145 | after a delete of `sid`, a lookup of `sid` yields no session |
| `ConnectMysql.UserColumn` | lib/connect-mysql.js:115-119 | the user column is non-NULL exactly when `passport.user` is present and non-zero, and then equals it |
| `ConnectMysql.StoreModule.constructor` | lib/connect-mysql.js:8 | the shared frequency starts at 20, a value that passes the guard |
| `ConnectMysql.Database.constructor` | lib/connect-mysql.js:43-51 | the table exists with whatever rows it already holds, and the cleanup event may already be registered by an earlier run |
| `ConnectMysql.Database.RunCleanupEvent` | lib/connect-mysql.js:50 | one run of the registered event is a sweep of the table |
| `ConnectMysql.MySQLStore.constructor` | lib/connect-mysql.js:21-52 | the flags are the ones the precedence rule gives; the shared frequency is replaced exactly when the guard accepts `options.freq`, so it keeps passing the guard; the cleanup event is registered when `isSqlCleanup` ends truthy |
| `ConnectMysql.MySQLStore.Cleanup` | lib/connect-mysql.js:66-72 | the table becomes its sweep at `now` |
| `ConnectMysql.MySQLStore.Get` | lib/connect-mysql.js:83-101 | callable in every state the constructors reach (the shared frequency passes the guard); the table is swept first exactly when the trigger holds for the draw, and is otherwise unchanged; the reply is the lookup in the resulting table |
| `ConnectMysql.MySQLStore.Set` | lib/connect-mysql.js:113-128 | the table becomes the upsert of the serialized session, the cookie's expiry and the derived user |
| `ConnectMysql.MySQLStore.Destroy` | lib/connect-mysql.js:139-145 | the table becomes the old one without `sid` |
| `StoreProperties.DefaultConfiguration` | lib/connect-mysql.js:8-22 | with an options object holding no property but `client`, both flags are true and the frequency stays 20 |
| `StoreProperties.SqlCleanupPrecedence` | lib/connect-mysql.js:27-35 | any `sqlCleanup` property makes `isCleanup` false and becomes `isSqlCleanup`; a falsy one turns off both cleanup modes |
| `StoreProperties.CleanupOptionAlone` | lib/connect-mysql.js:27-29 | without `sqlCleanup`, `cleanup` is taken as given and SQL cleanup stays on |
| `StoreProperties.NoOptionsEnableSampling` | lib/connect-mysql.js:21-35 | no options object yields flags that put the store in sampling mode |
| `StoreProperties.FreqOption` | lib/connect-mysql.js:38-40 | a non-zero number replaces the frequency; absent, zero, null, undefined, NaN, false and "" leave it |
| `StoreProperties.AcceptedFreqs` | lib/connect-mysql.js:38 | the guard admits exactly the non-zero numbers, `true` and the non-empty numeral strings |
| `StoreProperties.NonNumberFreqAccepted` | lib/connect-mysql.js:38-40 | `true` and `"5"` pass the guard and become the frequency |
| `StoreProperties.FreqStaysAccepted` | lib/connect-mysql.js:38-40 | the shared frequency passes the guard initially and after every construction |
| `StoreProperties.AcceptedFreqHasDraw` | lib/connect-mysql.js:86 | every frequency passing the guard admits a draw, so `get` is always callable |
| `StoreProperties.SamplingOdds` | lib/connect-mysql.js:86 | with frequency n >= 0 the draw ranges over 0..n and, in sampling mode, exactly the draw n sweeps |
| `StoreProperties.NoSweepOutsideSampling` | lib/connect-mysql.js:86 | outside sampling mode no draw sweeps |
| `StoreProperties.NegativeFreqNeverSweeps` | lib/connect-mysql.js:86 | with a negative frequency every possible draw exceeds it, so none sweeps |
| `StoreProperties.NonNumberFreqNeverSweeps` | lib/connect-mysql.js:86 | a non-number frequency never sweeps |
| `StoreProperties.NumericStringFreqWidth` | lib/connect-mysql.js:86 | with `"5"` the draw ranges over 0..50 and never sweeps |
| `StoreProperties.SetThenGet` | lib/connect-mysql.js:113-123 | a lookup right after the upsert that `set` performs yields the session that was set |
| `StoreProperties.SetLeavesOtherSids` | lib/connect-mysql.js:122-123 | `set` of one sid leaves what `get` yields for every other sid |
| `StoreProperties.DestroyLeavesOtherSids` | lib/connect-mysql.js:140 | `destroy` of one sid leaves what `get` yields for every other sid |
| `StoreProperties.ExpiredRowStillFound` | lib/connect-mysql.js:90-95 | an expired row is still returned by a lookup, and a sweep after its expiry removes it |
| `StoreProperties.SetThenGetOnStore` | lib/connect-mysql.js:83-128 | on a store, `set` then `get` yields the session, except that it yields none when the sampled sweep fires after the cookie expired |
| `StoreProperties.GetWithDrawZero` | lib/connect-mysql.js:83-101 | `get` can be called on every store whose shared frequency passes the guard, with the draw 0 |
| `StoreProperties.DestroyThenGetOnStore` | lib/connect-mysql.js:139-145 | on a store, `get` after `destroy` yields no session whatever the draw |
| `StoreProperties.LaterStoreRetunesEarlier` | lib/connect-mysql.js:38-40 | two stores from one factory share the frequency, which ends as the second construction leaves it |

## Left out

- The MySQL client, query execution, asynchronous callbacks and the `error` event handler are not modelled. Each statement's effect is applied to the table at once, in the order the calls are issued, and query errors are not modelled.
- `throw err` after a failed `CREATE TABLE` or a failed cleanup is left out. It is a fatal process exit, not a state of the store.
- The `CREATE TABLE` statement is not modelled. The table exists from the start with any content (`Database.constructor`).
- The event scheduler is reduced to a flag plus one sweep per run (`Database.RunCleanupEvent`). Its 15-minute schedule and the global `event_scheduler = 1` setting are left out.
- Races are not modelled: first use racing table creation, concurrent `set`s on one sid, and a sweep in flight during a read.
- `Math.random` is replaced by the `draw` parameter. Its uniform distribution is captured only as the set of possible draws (`PossibleDraw`, `SamplingOdds`).
- `new Date(...).getTime() / 1000` is left out: date parsing, floating-point division, and how MySQL rounds the value into `int(11)`. The model takes the cookie expiry as integer epoch seconds and stores it as given. A cookie with no expiry date therefore cannot be expressed.
- JavaScript numbers are modelled as integers only. Fractional and infinite numbers as options are not covered.
- `Js.ToNumber` recognises only empty or all-digit strings as numeric, so signed, fractional, hexadecimal and whitespace-padded numeric strings count as NaN. Objects and arrays as option values are not represented. Inherited properties of the options object are ignored.
- Sessions hold only `cookie.expires` and `passport.user`. Other session data, and the real ISO date text that `JSON.stringify` writes for a cookie's expiry, are not modelled. `Serialize`/`Parse` are a JSON-shaped stand-in for `JSON.stringify`/`JSON.parse` over those two fields.
- `ConnectMysql.UserColumn`: only integer user ids are modelled. An absent `passport.user` is `None`.
- Constructing a store without an options object is not modelled: the source throws at line 27 when `options` is undefined, and `Options` is always a map.
- `ConnectMysql.MySQLStore.Set` requires a passport, because the source throws a TypeError on `session.passport.user` when there is none.
- The limits of the `int(11)` columns, the 255-character limit of `sid`, and MySQL's case- and trailing-space-insensitive comparison of keys are not modelled. Keys are compared as exact strings.
- `util.inherits` and the base `connect.session.Store` are left out. They add no state the store uses.
- `options.client` is passed to the constructor as its own parameter.
