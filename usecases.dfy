/**
 * The use cases: `RateManager.get_rate` (the rate resolver), `UserManager`
 * (registration and login) and `PortfolioManager` (loading, saving, buying and
 * selling). Users and portfolios live in the `users` and `portfolios` tables of the
 * database; rates come from the rate store, refreshed through the updater.
 */
module UseCases {
  import opened Common
  import opened Errors
  import opened Text
  import opened Database
  import opened Currencies
  import opened Models
  import opened Utils
  import opened Storage
  import opened Updater

  /** What `get_rate` returns. */
  datatype RateInfo = RateInfo(rate: real, timestamp: Instant, source: string)

  /** An entry the secondary tier could find under a top-level key of `rates.json`. */
  datatype CacheEntry = CacheEntry(rate: real, updatedAt: Instant)

  /**
   * `db.read("rates")` as the secondary tier sees it: unreadable (malformed JSON), or
   * a document with the entries stored under top-level pair keys and its top-level `source`.
   */
  datatype SecondaryRead = Unreadable | Document(entries: map<string, CacheEntry>, source: Option<string>)

  /** The `rates_ttl_seconds` setting's default. */
  const DefaultTtlSeconds := 300

  /** The top-level keys of the snapshot document the rate store writes. */
  const StoreDocumentKeys: seq<string> := ["pairs", "last_refresh", "source"]

  /**
   * The secondary tier reads the same `rates.json` the rate store writes. A missing
   * file reads as `[]` (nothing found); a malformed one raises `DatabaseError`; a
   * written one is a dictionary whose only top-level keys are `StoreDocumentKeys`,
   * none of which is a pair of upper-cased codes (`StoreKeysAreNotPairs`), so no entry
   * can be found under a pair key.
   */
  function SecondaryFromFile(f: SnapshotFile): (d: SecondaryRead)
    ensures d.Unreadable? <==> f.CorruptSnapshotFile?
    ensures f.SnapshotWritten? ==> d == Document(map[], f.snapshot.source)
    ensures f.NoSnapshotFile? ==> d == Document(map[], None)
  {
    match f
    case NoSnapshotFile => Document(map[], None)
    case CorruptSnapshotFile => Unreadable
    case SnapshotWritten(s) => Document(map[], s.source)
  }

  /** No pair key of upper-cased codes is a top-level key of the store's snapshot document. */
  lemma StoreKeysAreNotPairs(from: string, to: string)
    ensures PairKey(Upper(from), Upper(to)) !in StoreDocumentKeys
  {
    var key := PairKey(Upper(from), Upper(to));
    UpperHasNoLower(from);
    assert key[|Upper(from)|] == '_';
    assert !Contains("pairs", '_') && !Contains("source", '_');
    if |Upper(from)| == 4 {
      // "last_refresh" has its '_' at index 4 too, but starts with a lower-case letter
      assert key[0] == Upper(from)[0];
    }
  }

  /** The first tier: the snapshot's entry for the pair, whatever its age. */
  function SnapshotLookup(s: Snapshot, pair: string): (info: Option<RateInfo>)
    ensures info.Some? <==> pair in s.pairs
    ensures info.Some? ==> info.value.rate == s.pairs[pair].rate
    ensures info.Some? ==> info.value.timestamp == s.pairs[pair].updatedAt
    ensures info.Some? ==> info.value.source == s.pairs[pair].source
  {
    if pair in s.pairs then
      var e := s.pairs[pair];
      Some(RateInfo(e.rate, e.updatedAt, e.source))
    else None
  }

  /**
   * The second tier: an entry found under the pair key counts only while strictly
   * younger than the TTL; it is reported with the document's source, `"Cache"` when absent.
   */
  function SecondaryLookup(d: SecondaryRead, pair: string, now: Instant, ttlSeconds: int)
    : (r: Result<Option<RateInfo>, Error>)
    ensures d.Unreadable? ==> r == Err(DatabaseError)
    ensures d.Document? ==> r.Ok?
    ensures d.Document? ==> (r.value.Some? <==>
              pair in d.entries && now - d.entries[pair].updatedAt < ttlSeconds * MicrosPerSecond)
    ensures d.Document? && r.value.Some? ==>
              r.value.value == RateInfo(d.entries[pair].rate, d.entries[pair].updatedAt, d.source.GetOr("Cache"))
  {
    match d
    case Unreadable => Err(DatabaseError)
    case Document(entries, source) =>
      if pair in entries && now - entries[pair].updatedAt < ttlSeconds * MicrosPerSecond then
        Ok(Some(RateInfo(entries[pair].rate, entries[pair].updatedAt, source.GetOr("Cache"))))
      else Ok(None)
  }

  /** An entry exactly as old as the TTL is stale. */
  lemma TtlIsStrict(pair: string, e: CacheEntry, source: Option<string>, ttlSeconds: int)
    ensures SecondaryLookup(Document(map[pair := e], source), pair,
                            e.updatedAt + ttlSeconds * MicrosPerSecond, ttlSeconds) == Ok(None)
  {
  }

  /**
   * For the file the rate store manages, the second tier never answers: it raises for
   * a malformed file and finds nothing otherwise.
   */
  lemma SecondaryTierNeverAnswers(f: SnapshotFile, from: string, to: string, now: Instant, ttlSeconds: int)
    ensures SecondaryLookup(SecondaryFromFile(f), PairKey(Upper(from), Upper(to)), now, ttlSeconds) ==
              if f.CorruptSnapshotFile? then Err(DatabaseError) else Ok(None)
  {
  }

  /**
   * The answer of `get_rate`, as a function of the registered codes, the snapshot file
   * before the call and the outcomes of the refresh: the same first-match chain, where
   * the refresh leaves `FinalSnapshot` of the default sources behind. Its only errors
   * are an unknown code, a malformed rate file and an unavailable rate.
   */
  function Resolve(entries: map<string, Currency>, f: SnapshotFile, from: string, to: string, now: Instant,
                   ttlSetting: Option<int>, attempts: seq<Attempt>): (r: Result<RateInfo, Error>)
    requires |attempts| == |DefaultSources|
    ensures r.Err? ==> r.error.CurrencyNotFound? || r.error == DatabaseError || r.error.ApiRequestError?
    ensures r.Err? && r.error == DatabaseError ==> f.CorruptSnapshotFile?
  {
    var fromCode := Upper(from);
    var toCode := Upper(to);
    if fromCode !in entries then Err(CurrencyNotFound(fromCode))
    else if toCode !in entries then Err(CurrencyNotFound(toCode))
    else if fromCode == toCode then Ok(RateInfo(1.0, now, "System"))
    else
      var pair := PairKey(fromCode, toCode);
      var cached := SnapshotLookup(SnapshotIn(f), pair);
      if cached.Some? then Ok(cached.value)
      else
        var secondary := SecondaryLookup(SecondaryFromFile(f), pair, now, ttlSetting.GetOr(DefaultTtlSeconds));
        if secondary.Err? then Err(secondary.error)
        else if secondary.value.Some? then Ok(secondary.value.value)
        else
          var refreshed := SnapshotLookup(SnapshotIn(FinalSnapshot(DefaultSources, attempts, f)), pair);
          if refreshed.Some? then Ok(refreshed.value)
          else Err(ApiRequestError(RateUnavailable(pair)))
  }

  /** A pair already in the snapshot is answered from it, whatever the refresh would do. */
  lemma CachedRateIgnoresRefresh(entries: map<string, Currency>, f: SnapshotFile, from: string, to: string,
                                 now: Instant, ttlSetting: Option<int>, attempts: seq<Attempt>, others: seq<Attempt>)
    requires |attempts| == |DefaultSources| && |others| == |DefaultSources|
    requires PairKey(Upper(from), Upper(to)) in SnapshotIn(f).pairs
    ensures Resolve(entries, f, from, to, now, ttlSetting, attempts) ==
            Resolve(entries, f, from, to, now, ttlSetting, others)
  {
  }

  /**
   * The USD rate a trade in `code` reports: `get_rate(code, "USD")`, with an unknown code
   * or an unavailable rate giving no rate.
   */
  function UsdQuote(entries: map<string, Currency>, f: SnapshotFile, code: string, now: Instant,
                    ttlSetting: Option<int>, attempts: seq<Attempt>): (q: Result<Option<real>, Error>)
    requires |attempts| == |DefaultSources|
    ensures q.Err? ==> q.error == DatabaseError && f.CorruptSnapshotFile?
    ensures q.Ok? && q.value.Some? ==> Resolve(entries, f, code, "USD", now, ttlSetting, attempts).Ok?
  {
    Tolerated(Resolve(entries, f, code, "USD", now, ttlSetting, attempts))
  }

  /** A trade in US dollars is quoted at exactly 1.0. */
  lemma UsdQuotesItself(entries: map<string, Currency>, f: SnapshotFile, code: string, now: Instant,
                        ttlSetting: Option<int>, attempts: seq<Attempt>)
    requires |attempts| == |DefaultSources|
    requires Upper(code) == "USD" && "USD" in entries
    ensures UsdQuote(entries, f, code, now, ttlSetting, attempts) == Ok(Some(1.0))
  {
    assert HasNoLower("USD");
    UpperOfNoLower("USD");
  }

  class RateManager {
    const registry: Registry
    const updater: RatesUpdater

    constructor (registry: Registry, updater: RatesUpdater)
      ensures this.registry == registry && this.updater == updater
    {
      this.registry := registry;
      this.updater := updater;
    }

    /**
     * `get_rate`, a first-match chain over the upper-cased codes: an unknown code fails
     * before any read; equal codes give 1.0 from `"System"`; then the snapshot entry,
     * whatever its age; then the TTL-bounded secondary tier (which raises
     * `DatabaseError` on a malformed file); then one `run_update` with the default
     * sources and a second snapshot read; else `ApiRequestError`. Only the last step
     * changes the store.
     */
    method GetRate(from: string, to: string, now: Instant, ttlSetting: Option<int>, attempts: seq<Attempt>)
      returns (r: Result<RateInfo, Error>)
      requires |attempts| == |DefaultSources|
      modifies updater.storage
      ensures r == Resolve(registry.entries, old(updater.storage.snapshotFile), from, to, now, ttlSetting, attempts)
      ensures Upper(from) !in registry.entries ==>
                r == Err(CurrencyNotFound(Upper(from))) && unchanged(updater.storage)
      ensures Upper(from) in registry.entries && Upper(to) !in registry.entries ==>
                r == Err(CurrencyNotFound(Upper(to))) && unchanged(updater.storage)
      ensures Upper(from) in registry.entries && Upper(to) in registry.entries && Upper(from) == Upper(to) ==>
                r == Ok(RateInfo(1.0, now, "System")) && unchanged(updater.storage)
      ensures Upper(from) in registry.entries && Upper(to) in registry.entries && Upper(from) != Upper(to) ==>
                var pair := PairKey(Upper(from), Upper(to));
                var cached := SnapshotLookup(old(updater.storage.GetCurrentRates()), pair);
                var secondary := SecondaryLookup(SecondaryFromFile(old(updater.storage.snapshotFile)), pair, now,
                                                 ttlSetting.GetOr(DefaultTtlSeconds));
                && (cached.Some? ==> r == Ok(cached.value) && unchanged(updater.storage))
                && (cached.None? && secondary.Err? ==> r == Err(secondary.error) && unchanged(updater.storage))
                && (cached.None? && secondary.Ok? && secondary.value.Some? ==>
                      r == Ok(secondary.value.value) && unchanged(updater.storage))
                && (cached.None? && secondary.Ok? && secondary.value.None? ==>
                      && updater.storage.snapshotFile ==
                           FinalSnapshot(DefaultSources, attempts, old(updater.storage.snapshotFile))
                      && old(updater.storage.LoadLedger()) <= updater.storage.LoadLedger()
                      && (SnapshotLookup(updater.storage.GetCurrentRates(), pair).Some? ==>
                            r == Ok(SnapshotLookup(updater.storage.GetCurrentRates(), pair).value))
                      && (SnapshotLookup(updater.storage.GetCurrentRates(), pair).None? ==>
                            r == Err(ApiRequestError(RateUnavailable(pair)))))
    {
      var fromCode := Upper(from);
      var toCode := Upper(to);
      UpperIdempotent(from);
      UpperIdempotent(to);
      var _ :- registry.Get(fromCode);
      var _ :- registry.Get(toCode);
      if fromCode == toCode {
        return Ok(RateInfo(1.0, now, "System"));
      }
      var pair := PairKey(fromCode, toCode);
      var storage := updater.storage;
      var cached := SnapshotLookup(storage.GetCurrentRates(), pair);
      if cached.Some? {
        return Ok(cached.value);
      }
      var ttl := ttlSetting.GetOr(DefaultTtlSeconds);
      var secondary :- SecondaryLookup(SecondaryFromFile(storage.snapshotFile), pair, now, ttl);
      if secondary.Some? {
        return Ok(secondary.value);
      }
      var _, _ := updater.RunUpdate(None, attempts);
      var refreshed := SnapshotLookup(storage.GetCurrentRates(), pair);
      if refreshed.Some? {
        return Ok(refreshed.value);
      }
      return Err(ApiRequestError(RateUnavailable(pair)));
    }
  }

  // ---------------------------------------------------------------------------------
  // Users
  // ---------------------------------------------------------------------------------

  /** What `register_user` returns. */
  datatype Registration = Registration(userId: int, username: string, registrationDate: Instant)

  /** The stored fields of a user, as `login_user` reads them back. */
  datatype Credentials = Credentials(userId: int, username: string, hashedPassword: string, salt: string,
                                     registrationDate: Instant)

  /** The filter `{"username": username}`. */
  function ByUsername(username: string): map<string, Value> {
    map["username" := VStr(username)]
  }

  /** The filter `{"user_id": userId}`. */
  function ByUserId(userId: int): map<string, Value> {
    map["user_id" := VInt(userId)]
  }

  /** The record `register_user` inserts into `users`. */
  function UserRecord(c: Credentials): Record {
    map["user_id" := VInt(c.userId), "username" := VStr(c.username),
        "hashed_password" := VStr(c.hashedPassword), "salt" := VStr(c.salt),
        "registration_date" := VInt(c.registrationDate)]
  }

  /** The record `_create_empty_portfolio` inserts into `portfolios`. */
  function EmptyPortfolioRecord(userId: int): Record {
    map["user_id" := VInt(userId), "wallets" := VObj(map[])]
  }

  /** `user.get("user_id", 0)` for a stored user. */
  function StoredId(r: Record): int {
    if "user_id" in r && r["user_id"].VInt? then r["user_id"].i else 0
  }

  function StoredIds(rows: seq<Record>): (ids: seq<int>)
    ensures |ids| == |rows| && forall i | 0 <= i < |rows| :: ids[i] == StoredId(rows[i])
  {
    seq(|rows|, i requires 0 <= i < |rows| => StoredId(rows[i]))
  }

  /** `record[key]` where an integer is expected. */
  function IntField(r: Record, key: string): (v: Result<int, Error>)
    ensures key !in r ==> v == Err(KeyError(key))
    ensures key in r && r[key].VInt? ==> v == Ok(r[key].i)
    ensures key in r && !r[key].VInt? ==> v == Err(TypeError(key))
  {
    if key !in r then Err(KeyError(key))
    else if r[key].VInt? then Ok(r[key].i)
    else Err(TypeError(key))
  }

  /** `record[key]` where a string is expected. */
  function StrField(r: Record, key: string): (v: Result<string, Error>)
    ensures key !in r ==> v == Err(KeyError(key))
    ensures key in r && r[key].VStr? ==> v == Ok(r[key].s)
    ensures key in r && !r[key].VStr? ==> v == Err(TypeError(key))
  {
    if key !in r then Err(KeyError(key))
    else if r[key].VStr? then Ok(r[key].s)
    else Err(TypeError(key))
  }

  /** A stored user whose five fields all have the expected types. */
  predicate IsUserRecord(r: Record) {
    && "user_id" in r && r["user_id"].VInt?
    && "username" in r && r["username"].VStr?
    && "hashed_password" in r && r["hashed_password"].VStr?
    && "salt" in r && r["salt"].VStr?
    && "registration_date" in r && r["registration_date"].VInt?
  }

  /** The credentials a well-typed user record holds. */
  function CredentialsOf(r: Record): (c: Credentials)
    requires IsUserRecord(r)
    ensures UserRecord(c) == r <==> r.Keys == UserRecord(c).Keys
  {
    Credentials(r["user_id"].i, r["username"].s, r["hashed_password"].s, r["salt"].s, r["registration_date"].i)
  }

  /** Reading back the record `register_user` writes gives the credentials it was built from. */
  lemma UserRecordRoundTrip(c: Credentials)
    ensures IsUserRecord(UserRecord(c)) && CredentialsOf(UserRecord(c)) == c
  {
    var r := UserRecord(c);
    assert "user_id"[4] == '_' && "username"[4] == 'n';
    assert r["user_id"] == VInt(c.userId) && r["username"] == VStr(c.username);
  }

  /**
   * The checks of `login_user` over the stored users: the first record with that
   * username, its fields read in constructor order, then the password checked against
   * the stored salt and hash.
   */
  function Authenticate(rows: seq<Record>, username: string, password: string, hash: (string, string) -> string)
    : (r: Result<Credentials, Error>)
    ensures FindFirst(rows, ByUsername(username)).None? ==> r == Err(UserNotFound(username))
    ensures FindFirst(rows, ByUsername(username)).Some? && !IsUserRecord(FindFirst(rows, ByUsername(username)).value) ==>
              r.Err? && (r.error.KeyError? || r.error.TypeError?)
    ensures FindFirst(rows, ByUsername(username)).Some? && IsUserRecord(FindFirst(rows, ByUsername(username)).value) ==>
              var c := CredentialsOf(FindFirst(rows, ByUsername(username)).value);
              && (hash(password, c.salt) == c.hashedPassword ==> r == Ok(c))
              && (hash(password, c.salt) != c.hashedPassword ==> r == Err(ValueError(WrongPassword)))
    ensures r.Ok? ==> r.value.username == username && hash(password, r.value.salt) == r.value.hashedPassword
  {
    match FindFirst(rows, ByUsername(username))
    case None => Err(UserNotFound(username))
    case Some(record) =>
      assert Field(record, "username") == VStr(username) by {
        assert Matches(record, ByUsername(username)) && "username" in ByUsername(username);
      }
      var userId :- IntField(record, "user_id");
      var name := record["username"].s;  // present: the record matched on it
      var hashed :- StrField(record, "hashed_password");
      var salt :- StrField(record, "salt");
      var registered :- IntField(record, "registration_date");
      if hash(password, salt) == hashed then Ok(Credentials(userId, name, hashed, salt, registered))
      else Err(ValueError(WrongPassword))
  }

  /** No two stored users share a username. */
  predicate UniqueUsernames(rows: seq<Record>) {
    forall i, j | 0 <= i < j < |rows| :: Field(rows[i], "username").VStr? ==> Field(rows[i], "username") != Field(rows[j], "username")
  }

  /** No two stored users share an integer id. */
  predicate UniqueIds(rows: seq<Record>) {
    forall i, j | 0 <= i < j < |rows| :: Field(rows[i], "user_id").VInt? ==> Field(rows[i], "user_id") != Field(rows[j], "user_id")
  }

  /** The record a successful registration appends to `users`. */
  function NewUser(rows: seq<Record>, username: string, password: string, salt: string, now: Instant,
                   hash: (string, string) -> string): Record
  {
    UserRecord(Credentials(NextUserId(StoredIds(rows)), username, hash(password, salt), salt, now))
  }

  /** When the name is not taken, no stored user has it, nor the next id. */
  lemma StoredUsersDiffer(rows: seq<Record>, username: string)
    requires FindFirst(rows, ByUsername(username)).None?
    ensures forall i | 0 <= i < |rows| :: Field(rows[i], "username") != VStr(username)
                                        && Field(rows[i], "user_id") != VInt(NextUserId(StoredIds(rows)))
  {
    var next := NextUserId(StoredIds(rows));
    forall i | 0 <= i < |rows|
      ensures Field(rows[i], "username") != VStr(username) && Field(rows[i], "user_id") != VInt(next)
    {
      assert rows[i] in rows;
      assert !Matches(rows[i], ByUsername(username));
      assert StoredIds(rows)[i] < next;
    }
  }

  /**
   * Registration keeps usernames and ids unique: the name was not taken, and the new id
   * exceeds every stored one.
   */
  lemma RegistrationKeepsUsersUnique(rows: seq<Record>, username: string, password: string, salt: string,
                                     now: Instant, hash: (string, string) -> string)
    requires UniqueUsernames(rows) && UniqueIds(rows)
    requires FindFirst(rows, ByUsername(username)).None?
    ensures UniqueUsernames(rows + [NewUser(rows, username, password, salt, now, hash)])
    ensures UniqueIds(rows + [NewUser(rows, username, password, salt, now, hash)])
  {
    var rec := NewUser(rows, username, password, salt, now, hash);
    UserRecordRoundTrip(Credentials(NextUserId(StoredIds(rows)), username, hash(password, salt), salt, now));
    StoredUsersDiffer(rows, username);
    var all := rows + [rec];
    forall i, j | 0 <= i < j < |all|
      ensures Field(all[i], "username") != Field(all[j], "username") || !Field(all[i], "username").VStr?
      ensures Field(all[i], "user_id") != Field(all[j], "user_id") || !Field(all[i], "user_id").VInt?
    {
      assert all[i] == rows[i];
      if j < |rows| {
        assert all[j] == rows[j];
      } else {
        assert all[j] == rec;
      }
    }
  }

  /**
   * Logging in right after registering finds the new user and accepts the password it
   * was registered with; any password with a different hash is refused.
   */
  lemma {:induction false} RegisterThenLogin(rows: seq<Record>, username: string, password: string, other: string,
                                             salt: string, now: Instant, hash: (string, string) -> string)
    requires FindFirst(rows, ByUsername(username)).None?
    ensures var c := Credentials(NextUserId(StoredIds(rows)), username, hash(password, salt), salt, now);
            Authenticate(rows + [UserRecord(c)], username, password, hash) == Ok(c)
    ensures hash(other, salt) != hash(password, salt) ==>
              Authenticate(rows + [NewUser(rows, username, password, salt, now, hash)], username, other, hash)
                == Err(ValueError(WrongPassword))
  {
    var rec := NewUser(rows, username, password, salt, now, hash);
    FindFirstAfterMisses(rows, rec, ByUsername(username));
    assert rec.Keys == UserRecord(CredentialsOf(rec)).Keys;
  }

  /** Appending a matching record to rows none of which match makes it the first match. */
  lemma {:induction false} FindFirstAfterMisses(rows: seq<Record>, rec: Record, filters: map<string, Value>)
    requires FindFirst(rows, filters).None?
    requires Matches(rec, filters)
    ensures FindFirst(rows + [rec], filters) == Some(rec)
  {
    if |rows| > 0 {
      assert rows[0] in rows;
      assert (rows + [rec])[1..] == rows[1..] + [rec];
      assert forall r | r in rows[1..] :: r in rows;
      FindFirstAfterMisses(rows[1..], rec, filters);
    }
  }

  class UserManager {
    var currentUser: Option<User>
    const db: DatabaseManager
    /** `_hash_password`: SHA-256 of the password followed by the salt, as an opaque function. */
    const hash: (string, string) -> string

    constructor (db: DatabaseManager, hash: (string, string) -> string)
      ensures currentUser == None && this.db == db && this.hash == hash
    {
      currentUser := None;
      this.db := db;
      this.hash := hash;
    }

    /** `_create_empty_portfolio`: inserts `{user_id, wallets: {}}` unless that user already has one. */
    method CreateEmptyPortfolio(userId: int) returns (r: Outcome<Error>)
      modifies db
      ensures old(db.Read("portfolios")).Err? ==> r == Fail(DatabaseError) && db.files == old(db.files)
      ensures old(db.Read("portfolios")).Ok? ==> r == Pass
      ensures old(db.Read("portfolios")).Ok? && FindFirst(old(db.Read("portfolios")).value, ByUserId(userId)).Some? ==>
                db.files == old(db.files)
      ensures old(db.Read("portfolios")).Ok? && FindFirst(old(db.Read("portfolios")).value, ByUserId(userId)).None? ==>
                db.files == old(db.files)["portfolios" := Rows(old(db.Read("portfolios")).value + [EmptyPortfolioRecord(userId)])]
    {
      var read := db.Read("portfolios");
      if read.Err? {
        return Fail(DatabaseError);
      }
      if FindFirst(read.value, ByUserId(userId)).Some? {
        return Pass;
      }
      r := db.Insert("portfolios", EmptyPortfolioRecord(userId));
    }

    /**
     * `register_user`: rejects a short password, then a taken username, before anything
     * is written; otherwise appends the new user with the next id and the salted hash, then
     * creates the empty portfolio (whose failure surfaces after the user is stored).
     */
    method RegisterUser(username: string, password: string, salt: string, now: Instant)
      returns (r: Result<Registration, Error>)
      modifies db
      ensures |password| < 4 ==> r == Err(ValueError(ShortPassword)) && db.files == old(db.files)
      ensures |password| >= 4 && old(db.Read("users")).Err? ==> r == Err(DatabaseError) && db.files == old(db.files)
      ensures |password| >= 4 && old(db.Read("users")).Ok? && FindFirst(old(db.Read("users")).value, ByUsername(username)).Some? ==>
                r == Err(ValueError(UsernameTaken(username))) && db.files == old(db.files)
      ensures |password| >= 4 && old(db.Read("users")).Ok? && FindFirst(old(db.Read("users")).value, ByUsername(username)).None? ==>
                var users := old(db.Read("users")).value;
                var id := NextUserId(StoredIds(users));
                var portfolios := old(db.Read("portfolios"));
                var withUser := old(db.files)["users" := Rows(users + [NewUser(users, username, password, salt, now, hash)])];
                && (portfolios.Err? ==> r == Err(DatabaseError) && db.files == withUser)
                && (portfolios.Ok? ==> r == Ok(Registration(id, username, now)))
                && (portfolios.Ok? && FindFirst(portfolios.value, ByUserId(id)).Some? ==> db.files == withUser)
                && (portfolios.Ok? && FindFirst(portfolios.value, ByUserId(id)).None? ==>
                      db.files == withUser["portfolios" := Rows(portfolios.value + [EmptyPortfolioRecord(id)])])
    {
      if |password| < 4 {
        return Err(ValueError(ShortPassword));
      }
      var users :- db.Read("users");
      if FindFirst(users, ByUsername(username)).Some? {
        return Err(ValueError(UsernameTaken(username)));
      }
      var id := NextUserId(StoredIds(users));
      var user := new User(id, username, hash(password, salt), salt, now, hash);
      var _ := db.Insert("users", UserRecord(Credentials(user.userId, user.username, user.hashedPassword,
                                                         user.salt, user.registrationDate)));
      var created := CreateEmptyPortfolio(id);
      if created.Fail? {
        return Err(created.error);
      }
      return Ok(Registration(id, username, now));
    }

    /**
     * `login_user`: the stored user with that name, rebuilt as a `User` and checked
     * against the password; only success sets the current user.
     */
    method LoginUser(username: string, password: string) returns (r: Result<User, Error>)
      modifies this`currentUser
      ensures db.Read("users").Err? ==> r == Err(DatabaseError) && currentUser == old(currentUser)
      ensures db.Read("users").Ok? && Authenticate(db.Read("users").value, username, password, hash).Err? ==>
                r == Err(Authenticate(db.Read("users").value, username, password, hash).error)
                && currentUser == old(currentUser)
      ensures db.Read("users").Ok? && Authenticate(db.Read("users").value, username, password, hash).Ok? ==>
                var c := Authenticate(db.Read("users").value, username, password, hash).value;
                && r.Ok? && fresh(r.value) && currentUser == Some(r.value)
                && r.value.userId == c.userId && r.value.username == c.username
                && r.value.hashedPassword == c.hashedPassword && r.value.salt == c.salt
                && r.value.registrationDate == c.registrationDate
                && r.value.VerifyPassword(password)
    {
      var users :- db.Read("users");
      var c :- Authenticate(users, username, password, hash);
      var user := new User(c.userId, c.username, c.hashedPassword, c.salt, c.registrationDate, hash);
      currentUser := Some(user);
      return Ok(user);
    }
  }

  // ---------------------------------------------------------------------------------
  // Portfolios
  // ---------------------------------------------------------------------------------

  /** `wallet_data.get("balance", 0.0)` for a stored wallet, as a number. */
  function StoredBalance(wallet: map<string, Value>): (r: Result<real, Error>)
    ensures "balance" !in wallet ==> r == Ok(0.0)
    ensures "balance" in wallet && wallet["balance"].VReal? ==> r == Ok(wallet["balance"].r)
    ensures "balance" in wallet && wallet["balance"].VInt? ==> r == Ok(wallet["balance"].i as real)
    ensures "balance" in wallet && !wallet["balance"].VReal? && !wallet["balance"].VInt? ==> r == Err(TypeError("balance"))
  {
    if "balance" !in wallet then Ok(0.0)
    else match wallet["balance"]
      case VReal(x) => Ok(x)
      case VInt(n) => Ok(n as real)
      case _ => Err(TypeError("balance"))
  }

  /**
   * The balances `get_user_portfolio` rebuilds from a stored portfolio: none when it has
   * no `wallets`; `AttributeError` when `wallets`, or one of its entries, is not an
   * object; otherwise each stored wallet's balance under its stored key.
   */
  function DecodeWallets(record: Record): (r: Result<map<string, real>, Error>)
    ensures "wallets" !in record ==> r == Ok(map[])
    ensures "wallets" in record && !record["wallets"].VObj? ==> r == Err(AttributeError("items"))
    ensures "wallets" in record && record["wallets"].VObj? ==>
              var ws := record["wallets"].fields;
              && ((exists c | c in ws :: !ws[c].VObj?) ==> r == Err(AttributeError("get")))
              && (r.Ok? <==> forall c | c in ws :: ws[c].VObj? && StoredBalance(ws[c].fields).Ok?)
              && (r.Ok? ==> r.value.Keys == ws.Keys && forall c | c in ws :: r.value[c] == StoredBalance(ws[c].fields).value)
  {
    if "wallets" !in record then Ok(map[])
    else match record["wallets"]
      case VObj(ws) =>
        if exists c | c in ws :: !ws[c].VObj? then Err(AttributeError("get"))
        else if exists c | c in ws :: StoredBalance(ws[c].fields).Err? then Err(TypeError("balance"))
        else Ok(map c | c in ws :: StoredBalance(ws[c].fields).value)
      case _ => Err(AttributeError("items"))
  }

  /** The `wallets` object `save_user_portfolio` writes: per code, its code and balance. */
  function WalletsDoc(balances: map<string, real>): Value {
    VObj(map c | c in balances :: WalletDoc(c, balances[c]))
  }

  /** The object one wallet is written as. */
  function WalletDoc(code: string, balance: real): Value {
    VObj(map["currency_code" := VStr(code), "balance" := VReal(balance)])
  }

  /** A written wallet reads back as its balance. */
  lemma WalletDocBalance(code: string, balance: real)
    ensures WalletDoc(code, balance).VObj? && StoredBalance(WalletDoc(code, balance).fields) == Ok(balance)
  {
    assert WalletDoc(code, balance).fields["balance"] == VReal(balance);
  }

  /** Reading back what `save_user_portfolio` wrote gives the saved balances. */
  lemma WalletsRoundTrip(record: Record, balances: map<string, real>)
    ensures DecodeWallets(record["wallets" := WalletsDoc(balances)]) == Ok(balances)
  {
    var stored := record["wallets" := WalletsDoc(balances)];
    var ws := WalletsDoc(balances).fields;
    assert stored["wallets"] == VObj(ws);
    forall c | c in ws ensures ws[c].VObj? && StoredBalance(ws[c].fields) == Ok(balances[c]) {
      WalletDocBalance(c, balances[c]);
    }
    var r := DecodeWallets(stored);
    assert r.Ok? && r.value.Keys == balances.Keys;
    assert forall c | c in balances :: r.value[c] == balances[c];
    assert r.value == balances;
  }

  /** `get_user_portfolio` before the objects are built: the first portfolio of the user, decoded. */
  function LoadBalances(read: Result<seq<Record>, Error>, userId: int): (r: Result<map<string, real>, Error>)
    ensures read.Err? ==> r == Err(read.error)
    ensures read.Ok? && FindFirst(read.value, ByUserId(userId)).None? ==> r == Err(PortfolioNotFound(userId))
    ensures read.Ok? && FindFirst(read.value, ByUserId(userId)).Some? ==>
              r == DecodeWallets(FindFirst(read.value, ByUserId(userId)).value)
  {
    var rows :- read;
    match FindFirst(rows, ByUserId(userId))
    case None => Err(PortfolioNotFound(userId))
    case Some(record) => DecodeWallets(record)
  }

  /** The `wallets` update `save_user_portfolio` merges into the user's portfolio records. */
  function WalletsUpdate(balances: map<string, real>): Record {
    map["wallets" := WalletsDoc(balances)]
  }

  /** The portfolio rows after `save_user_portfolio`: every record of the user gets the new wallets. */
  function SavedPortfolios(rows: seq<Record>, userId: int, balances: map<string, real>): (saved: seq<Record>)
    ensures |saved| == |rows|
    ensures forall i | 0 <= i < |rows| :: saved[i] == MergeIfMatching(rows[i], ByUserId(userId), WalletsUpdate(balances))
  {
    seq(|rows|, i requires 0 <= i < |rows| => MergeIfMatching(rows[i], ByUserId(userId), WalletsUpdate(balances)))
  }

  /** Merging the wallets keeps a record's `user_id`, so the first match stays the first match. */
  lemma {:induction false} FindFirstSaved(rows: seq<Record>, userId: int, balances: map<string, real>)
    ensures FindFirst(SavedPortfolios(rows, userId, balances), ByUserId(userId)) ==
              match FindFirst(rows, ByUserId(userId))
              case None => None
              case Some(record) => Some(record["wallets" := WalletsDoc(balances)])
  {
    var f := ByUserId(userId);
    var saved := SavedPortfolios(rows, userId, balances);
    if |rows| > 0 {
      assert Field(saved[0], "user_id") == Field(rows[0], "user_id");
      assert Matches(saved[0], f) == Matches(rows[0], f);
      if !Matches(rows[0], f) {
        assert saved[1..] == SavedPortfolios(rows[1..], userId, balances);
        FindFirstSaved(rows[1..], userId, balances);
      } else {
        assert rows[0] + WalletsUpdate(balances) == rows[0]["wallets" := WalletsDoc(balances)];
      }
    }
  }

  /** Loading a portfolio right after saving it gives back the saved balances. */
  lemma SaveThenLoad(rows: seq<Record>, userId: int, balances: map<string, real>)
    requires FindFirst(rows, ByUserId(userId)).Some?
    ensures LoadBalances(Ok(SavedPortfolios(rows, userId, balances)), userId) == Ok(balances)
  {
    FindFirstSaved(rows, userId, balances);
    WalletsRoundTrip(FindFirst(rows, ByUserId(userId)).value, balances);
  }

  /**
   * The wallets after `buy_currency`'s `add_currency` step: taken only when the raw code
   * is not a key, and adding a zero wallet under the upper-cased code only when absent.
   */
  function AfterAdd(balances: map<string, real>, code: string): (added: map<string, real>)
    ensures code !in balances ==> Upper(code) in added
    ensures added.Keys == balances.Keys + (if code in balances then {} else {Upper(code)})
    ensures forall c | c in balances :: added[c] == balances[c]
    ensures Upper(code) in added && Upper(code) !in balances ==> added[Upper(code)] == 0.0
  {
    if code in balances || Upper(code) in balances then balances else balances[Upper(code) := 0.0]
  }

  /** A wallet keyed by a code that is not upper-case hides the upper-cased one from `buy_currency`. */
  lemma LowerCaseKeyHidesWallet(balances: map<string, real>, code: string)
    requires code in balances && Upper(code) !in balances
    ensures Upper(code) !in AfterAdd(balances, code)
  {
  }

  /** `deposit` on the wallet under `key`: the balance grows by the amount unless it would stay negative. */
  function Credit(balances: map<string, real>, key: string, amount: real): (r: Result<map<string, real>, Error>)
    requires key in balances && amount > 0.0
    ensures r.Ok? <==> balances[key] + amount >= 0.0
    ensures r.Err? ==> r.error == ValueError(NegativeBalance)
    ensures r.Ok? ==> r.value.Keys == balances.Keys && r.value[key] == balances[key] + amount
    ensures r.Ok? ==> forall c | c in balances && c != key :: r.value[c] == balances[c]
  {
    if balances[key] + amount < 0.0 then Err(ValueError(NegativeBalance))
    else Ok(balances[key := balances[key] + amount])
  }

  /** `withdraw` from the wallet under `key`: refused when the amount exceeds the balance. */
  function Debit(balances: map<string, real>, key: string, amount: real): (r: Result<map<string, real>, Error>)
    requires key in balances && amount > 0.0
    ensures r.Ok? <==> amount <= balances[key]
    ensures r.Err? ==> r.error == InsufficientFunds(key, balances[key], amount)
    ensures r.Ok? ==> r.value.Keys == balances.Keys && r.value[key] == balances[key] - amount && r.value[key] >= 0.0
    ensures r.Ok? ==> forall c | c in balances && c != key :: r.value[c] == balances[c]
  {
    if amount > balances[key] then Err(InsufficientFunds(key, balances[key], amount))
    else Ok(balances[key := balances[key] - amount])
  }

  /**
   * Selling what was just bought restores the balances, provided the balance was not
   * negative; buying back what was just sold always restores them.
   */
  lemma TradesUndo(balances: map<string, real>, key: string, amount: real)
    requires key in balances && amount > 0.0
    ensures balances[key] >= 0.0 ==>
              Credit(balances, key, amount).Ok? && Debit(Credit(balances, key, amount).value, key, amount) == Ok(balances)
    ensures Debit(balances, key, amount).Ok? ==>
              Credit(Debit(balances, key, amount).value, key, amount) == Ok(balances)
  {
    if balances[key] >= 0.0 {
      var bought := Credit(balances, key, amount).value;
      assert amount <= bought[key];
      assert Debit(bought, key, amount).value == balances;
    }
    if Debit(balances, key, amount).Ok? {
      var sold := Debit(balances, key, amount).value;
      assert sold[key] + amount >= 0.0;
      assert Credit(sold, key, amount).value == balances;
    }
  }

  /** The `try` around the USD rate in a trade: a missing currency or an API failure gives no rate. */
  function Tolerated(rate: Result<RateInfo, Error>): (r: Result<Option<real>, Error>)
    ensures rate.Ok? ==> r == Ok(Some(rate.value.rate))
    ensures rate.Err? && (rate.error.IsCurrencyNotFound() || rate.error.ApiRequestError?) ==> r == Ok(None)
    ensures rate.Err? && !rate.error.IsCurrencyNotFound() && !rate.error.ApiRequestError? ==> r == Err(rate.error)
  {
    match rate
    case Ok(info) => Ok(Some(info.rate))
    case Err(e) => if e.IsCurrencyNotFound() || e.ApiRequestError? then Ok(None) else Err(e)
  }

  /** `amount * exchange_rate`, or `None` without a rate. */
  function Estimate(amount: real, rate: Option<real>): (v: Option<real>)
    ensures v.Some? <==> rate.Some?
    ensures rate.Some? ==> v.value == amount * rate.value
  {
    match rate
    case None => None
    case Some(x) => Some(amount * x)
  }

  /** What `buy_currency` and `sell_currency` return. */
  datatype TradeReceipt = TradeReceipt(currency: string, amount: real, oldBalance: real, newBalance: real,
                                       exchangeRate: Option<real>, estimatedValue: Option<real>, userId: int)

  /**
   * The result of a trade whose balance change was saved: the quote's error propagates;
   * otherwise the receipt carries the quoted rate and the estimate made from it.
   */
  function Receipt(quote: Result<Option<real>, Error>, code: string, amount: real, oldBalance: real,
                   newBalance: real, userId: int): Result<TradeReceipt, Error>
  {
    match quote
    case Err(e) => Err(e)
    case Ok(rate) => Ok(TradeReceipt(code, amount, oldBalance, newBalance, rate, Estimate(amount, rate), userId))
  }

  /**
   * What `buy_currency` returns for the balances `held` after the wallet check, given the
   * quote its rate lookup gives. Without a wallet under the upper-cased code (one stored
   * under a code that is not upper-case), nothing was deposited and `old_balance` is unbound
   * once the lookup returns; a deposit that would leave a negative balance is refused;
   * otherwise the receipt of the deposit carries the quoted rate.
   */
  function PurchaseResult(held: map<string, real>, code: string, amount: real, userId: int,
                          quote: Result<Option<real>, Error>): Result<TradeReceipt, Error>
    requires amount > 0.0
  {
    var key := Upper(code);
    if key !in held then
      if quote.Err? then Err(quote.error) else Err(UnboundLocalError("old_balance"))
    else if Credit(held, key, amount).Err? then Err(Credit(held, key, amount).error)
    else Receipt(quote, code, amount, held[key], held[key] + amount, userId)
  }

  /**
   * What `sell_currency` returns for the balances `held`, once the portfolio is loaded,
   * given the quote its rate lookup gives: no wallet under the upper-cased code, too
   * little to withdraw, or the receipt of the withdrawal with the quoted rate.
   */
  function SaleResult(held: map<string, real>, code: string, amount: real, userId: int,
                      quote: Result<Option<real>, Error>): Result<TradeReceipt, Error>
    requires amount > 0.0
  {
    var key := Upper(code);
    if key !in held then Err(NoWallet(code))
    else if Debit(held, key, amount).Err? then Err(Debit(held, key, amount).error)
    else Receipt(quote, code, amount, held[key], held[key] - amount, userId)
  }

  class PortfolioManager {
    const db: DatabaseManager
    const rates: RateManager

    constructor (db: DatabaseManager, rates: RateManager)
      ensures this.db == db && this.rates == rates
    {
      this.db := db;
      this.rates := rates;
    }

    /** `get_user_portfolio`: fresh wallet objects holding the stored balances, under their stored keys. */
    method GetUserPortfolio(userId: int) returns (r: Result<Portfolio, Error>)
      ensures LoadBalances(db.Read("portfolios"), userId).Err? ==>
                r == Err(LoadBalances(db.Read("portfolios"), userId).error)
      ensures LoadBalances(db.Read("portfolios"), userId).Ok? ==>
                && r.Ok? && fresh(r.value) && r.value.Valid() && r.value.userId == userId
                && (forall c | c in r.value.wallets :: fresh(r.value.wallets[c]))
                && r.value.Balances() == LoadBalances(db.Read("portfolios"), userId).value
    {
      var balances :- LoadBalances(db.Read("portfolios"), userId);
      var wallets := WalletsOf(balances);
      var portfolio := new Portfolio(userId, wallets);
      return Ok(portfolio);
    }

    /** The loop of `get_user_portfolio` that builds one fresh wallet per stored balance. */
    method WalletsOf(balances: map<string, real>) returns (wallets: map<string, Wallet>)
      ensures forall c | c in wallets :: fresh(wallets[c]) && wallets[c].currencyCode == c
      ensures BalancesOf(wallets) == balances
    {
      wallets := map[];
      var remaining := balances.Keys;
      while remaining != {}
        invariant remaining <= balances.Keys
        invariant wallets.Keys == balances.Keys - remaining
        invariant forall c | c in wallets :: fresh(wallets[c])
        invariant forall c | c in wallets :: wallets[c].currencyCode == c && wallets[c].balance == balances[c]
        decreases |remaining|
      {
        var c :| c in remaining;
        var w := new Wallet(c, balances[c]);
        wallets := wallets[c := w];
        remaining := remaining - {c};
      }
    }

    /**
     * `save_user_portfolio`: replaces the `wallets` of every stored portfolio of the user
     * with the current balances; nothing is written when the user has none.
     */
    method SaveUserPortfolio(portfolio: Portfolio) returns (r: Outcome<Error>)
      requires portfolio.Valid()
      modifies db
      ensures old(db.Read("portfolios")).Err? ==> r == Fail(DatabaseError) && db.files == old(db.files)
      ensures old(db.Read("portfolios")).Ok? ==> r == Pass
      ensures old(db.Read("portfolios")).Ok? && FindFirst(old(db.Read("portfolios")).value, ByUserId(portfolio.userId)).None? ==>
                db.files == old(db.files)
      ensures old(db.Read("portfolios")).Ok? && FindFirst(old(db.Read("portfolios")).value, ByUserId(portfolio.userId)).Some? ==>
                db.files == old(db.files)["portfolios" := Rows(SavedPortfolios(old(db.Read("portfolios")).value,
                                                                               portfolio.userId, portfolio.Balances()))]
    {
      var doc := WalletsDocOf(portfolio);
      var rows := db.Read("portfolios");
      r := db.Update("portfolios", ByUserId(portfolio.userId), map["wallets" := doc]);
      if rows.Ok? && FindFirst(rows.value, ByUserId(portfolio.userId)).Some? {
        assert db.files == old(db.files)["portfolios" := Rows(SavedPortfolios(rows.value, portfolio.userId, portfolio.Balances()))];
      }
    }

    /** The loop of `save_user_portfolio` that serialises each wallet. */
    method WalletsDocOf(portfolio: Portfolio) returns (doc: Value)
      requires portfolio.Valid()
      ensures doc == WalletsDoc(portfolio.Balances())
    {
      var fields: map<string, Value> := map[];
      var remaining := portfolio.wallets.Keys;
      while remaining != {}
        invariant remaining <= portfolio.wallets.Keys
        invariant fields.Keys == portfolio.wallets.Keys - remaining
        invariant forall c | c in fields :: fields[c] == WalletDoc(c, portfolio.wallets[c].balance)
        decreases |remaining|
      {
        var c :| c in remaining;
        var w := portfolio.wallets[c];
        fields := fields[c := WalletDoc(w.currencyCode, w.balance)];
        remaining := remaining - {c};
      }
      doc := VObj(fields);
      assert fields == WalletsDoc(portfolio.Balances()).fields;
    }
  

    /**
     * The tail both trades share: save the portfolio, then ask for the code's USD rate,
     * tolerating a missing currency or an API failure.
     */
    method SaveAndQuote(portfolio: Portfolio, code: string, now: Instant, ttlSetting: Option<int>,
                        attempts: seq<Attempt>) returns (rate: Result<Option<real>, Error>)
      requires portfolio.Valid() && |attempts| == |DefaultSources|
      requires db.Read("portfolios").Ok? && FindFirst(db.Read("portfolios").value, ByUserId(portfolio.userId)).Some?
      modifies db, rates.updater.storage
      ensures db.files == old(db.files)["portfolios" := Rows(SavedPortfolios(old(db.Read("portfolios")).value,
                                                                             portfolio.userId, portfolio.Balances()))]
      ensures rate == UsdQuote(rates.registry.entries, old(rates.updater.storage.snapshotFile), code, now,
                               ttlSetting, attempts)
    {
      var _ := SaveUserPortfolio(portfolio);
      ghost var saved := db.files;
      rate := QuoteUsd(code, now, ttlSetting, attempts);
      assert db.files == saved;
    }

    /** The USD rate of a trade, tolerating a missing currency or an API failure. */
    method QuoteUsd(code: string, now: Instant, ttlSetting: Option<int>, attempts: seq<Attempt>)
      returns (rate: Result<Option<real>, Error>)
      requires |attempts| == |DefaultSources|
      modifies rates.updater.storage
      ensures rate == UsdQuote(rates.registry.entries, old(rates.updater.storage.snapshotFile), code, now,
                               ttlSetting, attempts)
    {
      var info := rates.GetRate(code, "USD", now, ttlSetting, attempts);
      rate := Tolerated(info);
    }

    /** The checks both trades make before touching a wallet: amount, code, then the stored portfolio. */
    method OpenPortfolio(userId: int, code: string, amount: real) returns (r: Result<Portfolio, Error>)
      ensures amount <= 0.0 ==> r == Err(ValueError(NonPositiveAmount))
      ensures amount > 0.0 && Upper(code) !in rates.registry.entries ==> r == Err(CurrencyNotFound(Upper(code)))
      ensures amount > 0.0 && Upper(code) in rates.registry.entries && LoadBalances(db.Read("portfolios"), userId).Err? ==>
                r == Err(LoadBalances(db.Read("portfolios"), userId).error)
      ensures amount > 0.0 && Upper(code) in rates.registry.entries && LoadBalances(db.Read("portfolios"), userId).Ok? ==>
                && r.Ok? && fresh(r.value) && r.value.Valid() && r.value.userId == userId
                && (forall c | c in r.value.wallets :: fresh(r.value.wallets[c]))
                && r.value.Balances() == LoadBalances(db.Read("portfolios"), userId).value
    {
      if amount <= 0.0 {
        return Err(ValueError(NonPositiveAmount));
      }
      var _ :- rates.registry.Get(code);
      r := GetUserPortfolio(userId);
    }

    /** `wallet.deposit(amount)` on the wallet under `key`, seen as a change of the balances. */
    method DepositInto(portfolio: Portfolio, key: string, amount: real) returns (r: Outcome<Error>)
      requires portfolio.Valid() && key in portfolio.wallets && amount > 0.0
      modifies portfolio.wallets[key]
      ensures Credit(old(portfolio.Balances()), key, amount).Err? ==>
                r == Fail(ValueError(NegativeBalance)) && portfolio.Balances() == old(portfolio.Balances())
      ensures Credit(old(portfolio.Balances()), key, amount).Ok? ==>
                r == Pass && portfolio.Balances() == Credit(old(portfolio.Balances()), key, amount).value
    {
      r := portfolio.wallets[key].Deposit(amount);
      if r.Pass? {
        assert portfolio.Balances() == Credit(old(portfolio.Balances()), key, amount).value;
      } else {
        assert portfolio.Balances() == old(portfolio.Balances());
      }
    }

    /** `wallet.withdraw(amount)` on the wallet under `key`, seen as a change of the balances. */
    method WithdrawFrom(portfolio: Portfolio, key: string, amount: real) returns (r: Outcome<Error>)
      requires portfolio.Valid() && key in portfolio.wallets && amount > 0.0
      modifies portfolio.wallets[key]
      ensures Debit(old(portfolio.Balances()), key, amount).Err? ==>
                r == Fail(Debit(old(portfolio.Balances()), key, amount).error) && portfolio.Balances() == old(portfolio.Balances())
      ensures Debit(old(portfolio.Balances()), key, amount).Ok? ==>
                r == Pass && portfolio.Balances() == Debit(old(portfolio.Balances()), key, amount).value
    {
      r := portfolio.wallets[key].Withdraw(amount);
      if r.Pass? {
        assert portfolio.Balances() == Debit(old(portfolio.Balances()), key, amount).value;
      } else {
        assert portfolio.Balances() == old(portfolio.Balances());
      }
    }

    /**
     * `buy_currency`: rejects a non-positive amount and an unknown code before reading
     * the portfolio; adds the wallet when the raw code is not a key; deposits into the
     * wallet under the upper-cased code and saves; then looks up the USD rate, whose
     * failure leaves the purchase in place and only blanks the rate. A wallet stored under
     * a code that is not upper-case is found by the raw-code test but missed by
     * `get_wallet`, so nothing is deposited and the receipt fails on `old_balance` after
     * the save and the lookup.
     */
    method BuyCurrency(userId: int, code: string, amount: real, now: Instant, ttlSetting: Option<int>,
                       attempts: seq<Attempt>) returns (r: Result<TradeReceipt, Error>)
      requires |attempts| == |DefaultSources|
      modifies db, rates.updater.storage
      ensures amount <= 0.0 ==>
                r == Err(ValueError(NonPositiveAmount)) && db.files == old(db.files) && unchanged(rates.updater.storage)
      ensures amount > 0.0 && Upper(code) !in rates.registry.entries ==>
                r == Err(CurrencyNotFound(Upper(code))) && db.files == old(db.files) && unchanged(rates.updater.storage)
      ensures amount > 0.0 && Upper(code) in rates.registry.entries && LoadBalances(old(db.Read("portfolios")), userId).Err? ==>
                && r == Err(LoadBalances(old(db.Read("portfolios")), userId).error)
                && db.files == old(db.files) && unchanged(rates.updater.storage)
      ensures amount > 0.0 && Upper(code) in rates.registry.entries && LoadBalances(old(db.Read("portfolios")), userId).Ok? ==>
                var rows := old(db.Read("portfolios")).value;
                var held := AfterAdd(LoadBalances(old(db.Read("portfolios")), userId).value, code);
                var key := Upper(code);
                && r == PurchaseResult(held, code, amount, userId,
                                       UsdQuote(rates.registry.entries, old(rates.updater.storage.snapshotFile), code, now,
                                                ttlSetting, attempts))
                && (key !in held ==> db.files == old(db.files)["portfolios" := Rows(SavedPortfolios(rows, userId, held))])
                && (key in held && Credit(held, key, amount).Ok? ==>
                      db.files == old(db.files)["portfolios" := Rows(SavedPortfolios(rows, userId, Credit(held, key, amount).value))])
                && (key in held && Credit(held, key, amount).Err? ==>
                      db.files == old(db.files) && unchanged(rates.updater.storage))
    {
      var portfolio :- OpenPortfolio(userId, code, amount);
      r := BuyInto(portfolio, code, amount, now, ttlSetting, attempts);
    }

    /** `if currency_code not in portfolio.wallets: portfolio.add_currency(currency_code)`. */
    method EnsureWallet(portfolio: Portfolio, code: string)
      requires portfolio.Valid() && Upper(code) in rates.registry.entries
      modifies portfolio`wallets
      ensures portfolio.Valid()
      ensures portfolio.Balances() == AfterAdd(old(portfolio.Balances()), code)
      ensures forall c | c in portfolio.wallets ::
                (c in old(portfolio.wallets) && portfolio.wallets[c] == old(portfolio.wallets[c])) || fresh(portfolio.wallets[c])
    {
      UpperIdempotent(code);
      if code !in portfolio.Wallets() {
        var added := portfolio.AddCurrency(code, rates.registry);
        if Upper(code) !in old(portfolio.wallets) {
          assert portfolio.wallets == old(portfolio.wallets)[Upper(code) := added.value];
          assert portfolio.Balances() == old(portfolio.Balances())[Upper(code) := 0.0];
        }
      }
    }

    /** `buy_currency` once the portfolio is loaded. */
    method BuyInto(portfolio: Portfolio, code: string, amount: real, now: Instant, ttlSetting: Option<int>,
                   attempts: seq<Attempt>) returns (r: Result<TradeReceipt, Error>)
      requires portfolio.Valid() && |attempts| == |DefaultSources| && amount > 0.0
      requires Upper(code) in rates.registry.entries
      requires db.Read("portfolios").Ok? && FindFirst(db.Read("portfolios").value, ByUserId(portfolio.userId)).Some?
      modifies db, rates.updater.storage, portfolio`wallets, portfolio.wallets.Values
      ensures var held := AfterAdd(old(portfolio.Balances()), code);
              var rows := old(db.Read("portfolios")).value;
              var key := Upper(code);
              && r == PurchaseResult(held, code, amount, portfolio.userId,
                                     UsdQuote(rates.registry.entries, old(rates.updater.storage.snapshotFile), code, now,
                                              ttlSetting, attempts))
              && (key !in held ==> db.files == old(db.files)["portfolios" := Rows(SavedPortfolios(rows, portfolio.userId, held))])
              && (key in held && Credit(held, key, amount).Ok? ==>
                    db.files == old(db.files)["portfolios" := Rows(SavedPortfolios(rows, portfolio.userId,
                                                                                   Credit(held, key, amount).value))])
              && (key in held && Credit(held, key, amount).Err? ==>
                    db.files == old(db.files) && unchanged(rates.updater.storage))
    {
      EnsureWallet(portfolio, code);
      var wallet := portfolio.GetWallet(code);
      if wallet.None? {
        var _ :- SaveAndQuote(portfolio, code, now, ttlSetting, attempts);
        return Err(UnboundLocalError("old_balance"));
      }
      r := CreditAndQuote(portfolio, code, amount, now, ttlSetting, attempts);
    }

    /** The deposit, save and quote of `buy_currency` once the wallet exists. */
    method CreditAndQuote(portfolio: Portfolio, code: string, amount: real, now: Instant, ttlSetting: Option<int>,
                          attempts: seq<Attempt>) returns (r: Result<TradeReceipt, Error>)
      requires portfolio.Valid() && |attempts| == |DefaultSources| && amount > 0.0
      requires Upper(code) in portfolio.wallets
      requires db.Read("portfolios").Ok? && FindFirst(db.Read("portfolios").value, ByUserId(portfolio.userId)).Some?
      modifies db, rates.updater.storage, portfolio.wallets[Upper(code)]
      ensures var held := old(portfolio.Balances());
              var key := Upper(code);
              && r == PurchaseResult(held, code, amount, portfolio.userId,
                                     UsdQuote(rates.registry.entries, old(rates.updater.storage.snapshotFile), code, now,
                                              ttlSetting, attempts))
              && (Credit(held, key, amount).Ok? ==>
                    db.files == old(db.files)["portfolios" := Rows(SavedPortfolios(old(db.Read("portfolios")).value,
                                                                                   portfolio.userId, Credit(held, key, amount).value))])
              && (Credit(held, key, amount).Err? ==> db.files == old(db.files) && unchanged(rates.updater.storage))
    {
      var w := portfolio.wallets[Upper(code)];
      var oldBalance := w.balance;
      assert oldBalance == old(portfolio.Balances())[Upper(code)];
      var deposited := DepositInto(portfolio, Upper(code), amount);
      if deposited.Fail? {
        return Err(deposited.error);
      }
      assert w.balance == portfolio.Balances()[Upper(code)] == oldBalance + amount;
      assert db.files == old(db.files);
      var rate := SaveAndQuote(portfolio, code, now, ttlSetting, attempts);
      return Receipt(rate, code, amount, oldBalance, w.balance, portfolio.userId);
    }

    /**
     * `sell_currency`: the same checks, then no wallet under the upper-cased code is an
     * error; a withdrawal beyond the balance fails before anything is saved; otherwise the
     * reduced balance is saved before the USD rate is looked up.
     */
    method SellCurrency(userId: int, code: string, amount: real, now: Instant, ttlSetting: Option<int>,
                        attempts: seq<Attempt>) returns (r: Result<TradeReceipt, Error>)
      requires |attempts| == |DefaultSources|
      modifies db, rates.updater.storage
      ensures amount <= 0.0 ==>
                r == Err(ValueError(NonPositiveAmount)) && db.files == old(db.files) && unchanged(rates.updater.storage)
      ensures amount > 0.0 && Upper(code) !in rates.registry.entries ==>
                r == Err(CurrencyNotFound(Upper(code))) && db.files == old(db.files) && unchanged(rates.updater.storage)
      ensures amount > 0.0 && Upper(code) in rates.registry.entries && LoadBalances(old(db.Read("portfolios")), userId).Err? ==>
                && r == Err(LoadBalances(old(db.Read("portfolios")), userId).error)
                && db.files == old(db.files) && unchanged(rates.updater.storage)
      ensures amount > 0.0 && Upper(code) in rates.registry.entries && LoadBalances(old(db.Read("portfolios")), userId).Ok? ==>
                var rows := old(db.Read("portfolios")).value;
                var held := LoadBalances(old(db.Read("portfolios")), userId).value;
                var key := Upper(code);
                && r == SaleResult(held, code, amount, userId,
                                   UsdQuote(rates.registry.entries, old(rates.updater.storage.snapshotFile), code, now,
                                            ttlSetting, attempts))
                && (key in held && Debit(held, key, amount).Ok? ==>
                      db.files == old(db.files)["portfolios" := Rows(SavedPortfolios(rows, userId, Debit(held, key, amount).value))])
                && (!(key in held && Debit(held, key, amount).Ok?) ==>
                      db.files == old(db.files) && unchanged(rates.updater.storage))
    {
      var portfolio :- OpenPortfolio(userId, code, amount);
      r := SellFrom(portfolio, code, amount, now, ttlSetting, attempts);
    }

    /** `sell_currency` once the portfolio is loaded. */
    method SellFrom(portfolio: Portfolio, code: string, amount: real, now: Instant, ttlSetting: Option<int>,
                    attempts: seq<Attempt>) returns (r: Result<TradeReceipt, Error>)
      requires portfolio.Valid() && |attempts| == |DefaultSources| && amount > 0.0
      requires db.Read("portfolios").Ok? && FindFirst(db.Read("portfolios").value, ByUserId(portfolio.userId)).Some?
      modifies db, rates.updater.storage, portfolio.wallets.Values
      ensures var held := old(portfolio.Balances());
              var key := Upper(code);
              && r == SaleResult(held, code, amount, portfolio.userId,
                                 UsdQuote(rates.registry.entries, old(rates.updater.storage.snapshotFile), code, now,
                                          ttlSetting, attempts))
              && (key in held && Debit(held, key, amount).Ok? ==>
                    db.files == old(db.files)["portfolios" := Rows(SavedPortfolios(old(db.Read("portfolios")).value,
                                                                                   portfolio.userId, Debit(held, key, amount).value))])
              && (!(key in held && Debit(held, key, amount).Ok?) ==>
                    db.files == old(db.files) && unchanged(rates.updater.storage))
    {
      var wallet := portfolio.GetWallet(code);
      if wallet.None? {
        return Err(NoWallet(code));
      }
      r := DebitAndQuote(portfolio, code, amount, now, ttlSetting, attempts);
    }

    /** The withdrawal, save and quote of `sell_currency` once the wallet is found. */
    method DebitAndQuote(portfolio: Portfolio, code: string, amount: real, now: Instant, ttlSetting: Option<int>,
                         attempts: seq<Attempt>) returns (r: Result<TradeReceipt, Error>)
      requires portfolio.Valid() && |attempts| == |DefaultSources| && amount > 0.0
      requires Upper(code) in portfolio.wallets
      requires db.Read("portfolios").Ok? && FindFirst(db.Read("portfolios").value, ByUserId(portfolio.userId)).Some?
      modifies db, rates.updater.storage, portfolio.wallets[Upper(code)]
      ensures var held := old(portfolio.Balances());
              var key := Upper(code);
              && r == SaleResult(held, code, amount, portfolio.userId,
                                 UsdQuote(rates.registry.entries, old(rates.updater.storage.snapshotFile), code, now,
                                          ttlSetting, attempts))
              && (Debit(held, key, amount).Ok? ==>
                    db.files == old(db.files)["portfolios" := Rows(SavedPortfolios(old(db.Read("portfolios")).value,
                                                                                   portfolio.userId, Debit(held, key, amount).value))])
              && (Debit(held, key, amount).Err? ==> db.files == old(db.files) && unchanged(rates.updater.storage))
    {
      var w := portfolio.wallets[Upper(code)];
      var oldBalance := w.balance;
      assert oldBalance == old(portfolio.Balances())[Upper(code)];
      var withdrawn := WithdrawFrom(portfolio, Upper(code), amount);
      if withdrawn.Fail? {
        return Err(withdrawn.error);
      }
      assert w.balance == portfolio.Balances()[Upper(code)] == oldBalance - amount;
      assert db.files == old(db.files);
      var rate := SaveAndQuote(portfolio, code, now, ttlSetting, attempts);
      return Receipt(rate, code, amount, oldBalance, w.balance, portfolio.userId);
    }
  }
}
