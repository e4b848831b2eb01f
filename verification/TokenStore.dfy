/** Tokens: a table, a cache of it, and an index from the digest of a secret to its token. */
module TokenStore {
  import opened Bytes

  datatype Limits = Limits(
    maxSessions: u32, maxStreams: u32, maxBytes: u64, ttlSecs: u64,
    maxTunnels: u32, bandwidthMonthly: u64, maxClients: u32, rateLimitRpm: u32)

  /** The columns of the table that hold limits: signed 64-bit integers. */
  datatype Columns = Columns(maxSessions: i64, maxStreams: i64, maxBytes: i64, ttlSecs: i64)

  type i64 = x: int | -0x8000_0000_0000_0000 <= x < 0x8000_0000_0000_0000

  const WRAP: nat := 0x1_0000_0000_0000_0000

  /** `as i64` of an unsigned number, `as u64` and `as u32` of a signed one. */
  function AsI64(x: u64): i64 {
    if x < 0x8000_0000_0000_0000 then x else x - WRAP
  }

  function AsU64(x: i64): u64 {
    x % WRAP
  }

  function AsU32(x: i64): u32 {
    x % 0x1_0000_0000
  }

  function Written(l: Limits): Columns {
    Columns(AsI64(l.maxSessions), AsI64(l.maxStreams), AsI64(l.maxBytes), AsI64(l.ttlSecs))
  }

  /** The other four limits come back as their default, unlimited. */
  function Loaded(c: Columns): Limits {
    Limits(AsU32(c.maxSessions), AsU32(c.maxStreams), AsU64(c.maxBytes), AsU64(c.ttlSecs), 0, 0, 0, 0)
  }

  /** What comes back of limits that were stored. */
  function Persisted(l: Limits): Limits {
    Loaded(Written(l))
  }

  /** Column by column: what fits 63 bits is stored as it is, and a larger limit as a negative number that comes back. */
  lemma ColumnByColumn(l: Limits)
    ensures l.maxSessions == Written(l).maxSessions && l.maxStreams == Written(l).maxStreams
    ensures l.maxBytes == Written(l).maxBytes <==> l.maxBytes < 0x8000_0000_0000_0000
    ensures l.ttlSecs == Written(l).ttlSecs <==> l.ttlSecs < 0x8000_0000_0000_0000
    ensures Written(l).maxBytes < 0 <==> l.maxBytes >= 0x8000_0000_0000_0000
    ensures Persisted(l).maxBytes == l.maxBytes && Persisted(l).ttlSecs == l.ttlSecs
  {
  }

  datatype Record = Record(id: string, name: string, owner: Option<int>, limits: Limits, enabled: bool, createdAt: int)

  /** Rows written before there was a digest column have none. */
  datatype Row = Row(record: Record, hash: string, digest: Option<string>)

  type Rows = map<string, Row>

  // ---- the two hashes ----

  /** SHA-256 of a secret, and argon2 with a salt. */
  datatype Crypto = Crypto(digest: string -> string, hash: (string, nat) -> string, verify: (string, string) -> bool)

  /** What is assumed of them: no two secrets share a digest, and a hash verifies for its own secret only. */
  ghost predicate Ideal(c: Crypto) {
    && (forall s, t :: c.digest(s) == c.digest(t) ==> s == t)
    && (forall s, t, salt :: c.verify(s, c.hash(t, salt)) <==> s == t)
  }

  /** The row was made for this secret. */
  ghost predicate MadeFor(c: Crypto, id: string, row: Row, secret: string) {
    && row.record.id == id && row.record.limits == Persisted(row.record.limits)
    && (exists salt :: row.hash == c.hash(secret, salt))
    && (row.digest.Some? ==> row.digest.value == c.digest(secret))
  }

  /** Every row has its own secret. */
  ghost predicate Tabled(c: Crypto, rows: Rows, secrets: map<string, string>) {
    && rows.Keys == secrets.Keys
    && (forall id :: id in rows ==> MadeFor(c, id, rows[id], secrets[id]))
    && (forall a, b :: a in secrets && b in secrets && secrets[a] == secrets[b] ==> a == b)
  }

  // ---- the reference: try every row in turn ----

  function Scan(c: Crypto, rows: Rows, order: seq<string>, secret: string): Option<Record>
    requires forall id :: id in order ==> id in rows
  {
    if order == [] then None
    else
      assert order[0] in order;
      if c.verify(secret, rows[order[0]].hash) then
        (if rows[order[0]].record.enabled then Some(rows[order[0]].record) else None)
      else Scan(c, rows, order[1..], secret)
  }

  /** The answer a secret deserves: the record of the enabled token that has it. */
  ghost predicate Deserves(rows: Rows, secrets: map<string, string>, secret: string, r: Option<Record>)
    requires rows.Keys == secrets.Keys
  {
    && (r.Some? <==> exists id :: id in secrets && secrets[id] == secret && rows[id].record.enabled)
    && (r.Some? ==> r.value.id in secrets && secrets[r.value.id] == secret && r.value == rows[r.value.id].record)
  }

  lemma VerifyIff(c: Crypto, id: string, row: Row, secret: string, s: string)
    requires Ideal(c) && MadeFor(c, id, row, secret)
    ensures c.verify(s, row.hash) <==> s == secret
  {
    var salt :| row.hash == c.hash(secret, salt);
  }

  /** One token at most has a given secret, so its record decides the answer. */
  lemma OwnerDeserves(c: Crypto, rows: Rows, secrets: map<string, string>, id: string, r: Option<Record>)
    requires Tabled(c, rows, secrets) && id in rows
    requires r == if rows[id].record.enabled then Some(rows[id].record) else None
    ensures Deserves(rows, secrets, secrets[id], r)
  {
  }

  /** Scanning all rows, in whatever order, gives the answer the secret deserves. */
  lemma {:induction false} ScanDeserves(c: Crypto, rows: Rows, secrets: map<string, string>, order: seq<string>, secret: string)
    requires Ideal(c) && Tabled(c, rows, secrets)
    requires forall id :: id in order ==> id in rows
    requires forall id :: id in rows && secrets[id] == secret ==> id in order
    ensures Deserves(rows, secrets, secret, Scan(c, rows, order, secret))
  {
    if order != [] {
      var id := order[0];
      assert id in order;
      VerifyIff(c, id, rows[id], secrets[id], secret);
      if secrets[id] == secret {
        OwnerDeserves(c, rows, secrets, id, Scan(c, rows, order, secret));
      } else {
        forall other | other in rows && secrets[other] == secret
          ensures other in order[1..]
        {
          assert other in order && other != order[0];
        }
        ScanDeserves(c, rows, secrets, order[1..], secret);
      }
    }
  }

  lemma NobodyDeserves(c: Crypto, rows: Rows, secrets: map<string, string>, secret: string)
    requires Tabled(c, rows, secrets) && forall id :: id in rows ==> secrets[id] != secret
    ensures Deserves(rows, secrets, secret, None)
  {
  }

  lemma LegacyRow(c: Crypto, rows: Rows, secrets: map<string, string>, id: string, secret: string)
    requires Ideal(c) && Tabled(c, rows, secrets) && id in rows
    ensures c.verify(secret, rows[id].hash) <==> secret == secrets[id]
  {
    VerifyIff(c, id, rows[id], secrets[id], secret);
  }

  lemma NewRow(c: Crypto, id: string, row: Row, secret: string, salt: nat)
    requires row.record.id == id && row.record.limits == Persisted(row.record.limits)
    requires row.hash == c.hash(secret, salt) && row.digest == Some(c.digest(secret))
    ensures MadeFor(c, id, row, secret)
  {
  }

  lemma TabledPut(c: Crypto, rows: Rows, secrets: map<string, string>, id: string, row: Row, secret: string)
    requires Tabled(c, rows, secrets) && MadeFor(c, id, row, secret)
    requires forall other :: other in secrets && secrets[other] == secret ==> other == id
    ensures Tabled(c, rows[id := row], secrets[id := secret])
  {
    hide MadeFor;
  }

  /** There is only one such answer. */
  lemma DeservesOne(c: Crypto, rows: Rows, secrets: map<string, string>, secret: string, r: Option<Record>, r': Option<Record>)
    requires Tabled(c, rows, secrets) && Deserves(rows, secrets, secret, r) && Deserves(rows, secrets, secret, r')
    ensures r == r'
  {
  }

  lemma WrittenLoads(l: Limits)
    ensures Persisted(l) == l.(maxTunnels := 0, bandwidthMonthly := 0, maxClients := 0, rateLimitRpm := 0)
    ensures Persisted(Persisted(l)) == Persisted(l)
  {
  }

  /** A token's secret earns the limits it was created with exactly when the four that have no column are switched off. */
  lemma LimitsSurviveIff(c: Crypto, rows: Rows, secrets: map<string, string>, id: string, limits: Limits, secret: string, r: Option<Record>)
    requires Tabled(c, rows, secrets) && id in rows && secrets[id] == secret && Deserves(rows, secrets, secret, r)
    requires rows[id].record.enabled && rows[id].record.limits == Persisted(limits)
    ensures r.Some? && r.value.id == id
    ensures r.value.limits == limits <==>
              limits.maxTunnels == 0 && limits.bandwidthMonthly == 0 && limits.maxClients == 0 && limits.rateLimitRpm == 0
  {
    WrittenLoads(limits);
    assert r.Some? && secrets[r.value.id] == secret;
  }

  // ---- the index ----

  function Legacy(rows: Rows): set<string> {
    set id | id in rows && rows[id].digest.None?
  }

  /** Every digest leads to its row, and every entry to a row with that digest. */
  ghost predicate Indexed(rows: Rows, index: map<string, string>) {
    && (forall id :: id in rows && rows[id].digest.Some? ==> rows[id].digest.value in index && index[rows[id].digest.value] == id)
    && (forall d :: d in index ==> index[d] in rows && rows[index[d]].digest == Some(d))
  }

  /** A hit names the one token that can have the secret. */
  lemma HitOwns(c: Crypto, rows: Rows, secrets: map<string, string>, index: map<string, string>, secret: string)
    requires Ideal(c) && Tabled(c, rows, secrets) && Indexed(rows, index) && c.digest(secret) in index
    ensures index[c.digest(secret)] in rows && secrets[index[c.digest(secret)]] == secret
  {
    var id := index[c.digest(secret)];
    assert MadeFor(c, id, rows[id], secrets[id]);
  }

  /** A miss leaves the rows without a digest. */
  lemma MissLeavesLegacy(c: Crypto, rows: Rows, secrets: map<string, string>, index: map<string, string>, secret: string)
    requires Tabled(c, rows, secrets) && Indexed(rows, index) && c.digest(secret) !in index
    ensures forall id :: id in rows && secrets[id] == secret ==> id in Legacy(rows)
  {
    forall id | id in rows && secrets[id] == secret
      ensures id in Legacy(rows)
    {
      assert MadeFor(c, id, rows[id], secrets[id]);
    }
  }

  // ---- the store ----

  class Store {
    const c: Crypto
    var db: Rows
    var cache: Rows
    var index: map<string, string>
    var argon2Verifies: nat
    ghost var secrets: map<string, string>   // whose secret each row was made for

    ghost predicate Valid()
      reads this
    {
      Ideal(c) && Tabled(c, db, secrets) && cache == db && Indexed(db, index)
    }

    /** Opening a table that is already there. */
    constructor (c: Crypto, rows: Rows, ghost secrets: map<string, string>)
      requires Ideal(c) && Tabled(c, rows, secrets)
      ensures Valid() && this.c == c && db == rows && this.secrets == secrets && argon2Verifies == 0
    {
      this.c, this.db, this.secrets := c, rows, secrets;
      cache, index, argon2Verifies := map[], map[], 0;
      new;
      ReloadCache();
    }

    /** `reload_cache_sync`: clear both, then enter the rows one by one, in whatever order they come. */
    method ReloadCache()
      requires Ideal(c) && Tabled(c, db, secrets)
      modifies this`cache, this`index
      ensures Valid()
    {
      hide Indexed, Tabled, Ideal, Part;
      cache, index := map[], map[];
      NothingIndexed();
      var todo := db.Keys;
      while todo != {}
        invariant todo <= db.Keys && cache.Keys == db.Keys - todo
        invariant Part(cache, db)
        invariant Indexed(cache, index)
        decreases |todo|
      {
        var id :| id in todo;
        var row := db[id];
        NewDigest(c, db, secrets, cache, id);
        EnterRow(cache, db, index, id, row);
        if row.digest.Some? {
          index := index[row.digest.value := id];
        }
        cache := cache[id := row];
        todo := todo - {id};
      }
      PartIsWhole(cache, db);
    }

    method WriteToken(record: Record, secret: string, salt: nat)
      requires Ideal(c) && Tabled(c, db, secrets)
      requires forall id :: id in secrets && secrets[id] == secret ==> id == record.id
      modifies this`db, this`secrets
      ensures Tabled(c, db, secrets) && secrets == old(secrets)[record.id := secret]
      ensures db == old(db)[record.id := Row(record.(limits := Persisted(record.limits)), c.hash(secret, salt), Some(c.digest(secret)))]
    {
      hide Persisted, Tabled, MadeFor;
      WrittenLoads(record.limits);
      var row := Row(record.(limits := Persisted(record.limits)), c.hash(secret, salt), Some(c.digest(secret)));
      NewRow(c, record.id, row, secret, salt);
      TabledPut(c, db, secrets, record.id, row, secret);
      db := db[record.id := row];
      secrets := secrets[record.id := secret];
    }

    /** A token under a chosen id; one that is there already is replaced. */
    method Insert(record: Record, secret: string, salt: nat)
      requires Valid()
      requires forall id :: id in secrets && secrets[id] == secret ==> id == record.id
      modifies this`db, this`secrets, this`cache, this`index
      ensures Valid() && secrets == old(secrets)[record.id := secret]
      ensures forall id :: id in old(db) && id != record.id ==> id in db && db[id] == old(db)[id]
      ensures record.id in db && db[record.id].record == record.(limits := Persisted(record.limits)) && db[record.id].digest.Some?
    {
      WriteToken(record, secret, salt);
      ReloadCache();
    }

    /** A new enabled token; `slug` and `secret` are what the random source yields. */
    method CreateOwned(slug: string, secret: string, salt: nat, name: string, limits: Limits, owner: Option<int>, now: int) returns (id: string)
      requires Valid() && secret !in secrets.Values
      modifies this`db, this`secrets, this`cache, this`index
      ensures Valid() && id == "t-" + slug && secrets == old(secrets)[id := secret]
      ensures id in db && db[id].record == Record(id, name, owner, Persisted(limits), true, now)
      ensures forall other :: other in old(db) && other != id ==> other in db && db[other] == old(db)[other]
    {
      id := "t-" + slug;
      Insert(Record(id, name, owner, limits, true, now), secret, salt);
    }

    method SetEnabled(id: string, enabled: bool)
      requires Valid()
      modifies this`db, this`cache, this`index
      ensures Valid()
      ensures db == if id in old(db) then old(db)[id := old(db)[id].(record := old(db)[id].record.(enabled := enabled))] else old(db)
    {
      hide Persisted;
      if id in db {
        assert MadeFor(c, id, db[id], secrets[id]);
        db := db[id := db[id].(record := db[id].record.(enabled := enabled))];
      }
      ReloadCache();
    }

    method Delete(id: string)
      requires Valid()
      modifies this`db, this`secrets, this`cache, this`index
      ensures Valid() && db == old(db) - {id} && secrets == old(secrets) - {id}
    {
      db, secrets := db - {id}, secrets - {id};
      ReloadCache();
    }

    /**
     * Answers as scanning every row would. It costs one slow verify when the digest is known, none when it is
     * not and no row is without one, and at most as many as there are such rows otherwise.
     */
    method Validate(secret: string) returns (r: Option<Record>)
      requires Valid()
      modifies this`argon2Verifies
      ensures Deserves(db, secrets, secret, r)
      ensures c.digest(secret) in index ==> argon2Verifies == old(argon2Verifies) + 1
      ensures c.digest(secret) !in index ==>
                old(argon2Verifies) <= argon2Verifies <= old(argon2Verifies) + |set id | id in db && db[id].digest.None?|
    {
      assert Legacy(db) == set id | id in db && db[id].digest.None?;
      if c.digest(secret) in index {
        var id := index[c.digest(secret)];
        HitOwns(c, db, secrets, index, secret);
        OwnerDeserves(c, db, secrets, id, if db[id].record.enabled then Some(db[id].record) else None);
        VerifyIff(c, id, db[id], secrets[id], secret);
        var hash := cache[id].hash;
        argon2Verifies := argon2Verifies + 1;
        if !c.verify(secret, hash) {
          return None;
        }
        return if cache[id].record.enabled then Some(cache[id].record) else None;
      }
      MissLeavesLegacy(c, db, secrets, index, secret);
      r := ScanLegacy(secret);
    }

    method ScanLegacy(secret: string) returns (r: Option<Record>)
      requires Valid() && forall id :: id in db && secrets[id] == secret ==> id in Legacy(db)
      modifies this`argon2Verifies
      ensures Deserves(db, secrets, secret, r)
      ensures old(argon2Verifies) <= argon2Verifies <= old(argon2Verifies) + |Legacy(db)|
    {
      assert db.Keys == secrets.Keys;
      hide Deserves, Indexed, Ideal, Tabled;
      var todo := Legacy(cache);
      while todo != {}
        invariant todo <= Legacy(db)
        invariant forall id :: id in secrets && secrets[id] == secret ==> id in todo
        invariant old(argon2Verifies) <= argon2Verifies == old(argon2Verifies) + |Legacy(db)| - |todo|
        decreases |todo|
      {
        var id :| id in todo;
        LegacyRow(c, db, secrets, id, secret);
        argon2Verifies := argon2Verifies + 1;
        if c.verify(secret, cache[id].hash) {
          r := if cache[id].record.enabled then Some(cache[id].record) else None;
          OwnerDeserves(c, db, secrets, id, r);
          return;
        }
        todo := todo - {id};
      }
      NobodyDeserves(c, db, secrets, secret);
      return None;
    }
  }

  predicate Part(entered: Rows, rows: Rows) {
    forall id :: id in entered ==> id in rows && entered[id] == rows[id]
  }

  lemma PartIsWhole(entered: Rows, rows: Rows)
    requires Part(entered, rows) && entered.Keys == rows.Keys
    ensures entered == rows
  {
  }

  lemma NothingIndexed()
    ensures Indexed(map[], map[]) && forall rows: Rows :: Part(map[], rows)
  {
  }

  lemma EnterRow(entered: Rows, rows: Rows, index: map<string, string>, id: string, row: Row)
    requires Indexed(entered, index) && id !in entered && Part(entered, rows) && id in rows && rows[id] == row
    requires row.digest.Some? ==> forall other :: other in entered ==> entered[other].digest != row.digest
    ensures Part(entered[id := row], rows)
    ensures Indexed(entered[id := row], if row.digest.Some? then index[row.digest.value := id] else index)
  {
  }

  /** No row entered so far has the digest of one still to come. */
  lemma NewDigest(c: Crypto, rows: Rows, secrets: map<string, string>, entered: Rows, id: string)
    requires Ideal(c) && Tabled(c, rows, secrets) && id in rows && id !in entered
    requires Part(entered, rows)
    ensures rows[id].digest.Some? ==> forall other :: other in entered ==> entered[other].digest != rows[id].digest
  {
    assert MadeFor(c, id, rows[id], secrets[id]);
    forall other | other in entered
      ensures rows[id].digest.Some? ==> entered[other].digest != rows[id].digest
    {
      assert MadeFor(c, other, rows[other], secrets[other]);
    }
  }
}
