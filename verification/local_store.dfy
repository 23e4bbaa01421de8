/** The `LocalStore` class of metastore: a key-value store kept in the single
    SQLite table `metastore(k PRIMARY KEY, v)`. The SQL engine is abstracted to
    a map from key to value, plus whether the table exists at all. */
module LocalStore {
  import opened Wrappers

  /** The two failures a local store reports: a key without a row (Python's
      `KeyError`) and a missing `metastore` table (`sqlite3.OperationalError`). */
  datatype Error = NotFound | NoTable

  /** The `metastore` table of one SQLite file. The primary key on `k` makes
      it a map: at most one value per key. */
  datatype Db = Missing | Table(rows: map<string, string>)

  /** The key `bootstrap` reads to find out whether the table exists. */
  const ProbeKey: string := "foo"

  /** Suffix of the host-derived default file name. */
  const DatafileSuffix: string := ".sdb"

  /** `get`: look up the one row whose key is exactly `key`. */
  function Get(db: Db, key: string): (r: Result<string, Error>)
    ensures r.Ok? <==> db.Table? && key in db.rows
    ensures r.Ok? ==> r.value == db.rows[key]
    ensures r.Err? ==> (r.error == NoTable <==> db.Missing?)
  {
    match db
    case Missing => Err(NoTable)
    case Table(rows) => if key in rows then Ok(rows[key]) else Err(NotFound)
  }

  /** What `put` answers, together with the table after the statement. */
  datatype Written = Written(reply: Result<bool, Error>, db: Db)

  /** `put`: `REPLACE INTO` on the primary key, then commit; answers `True`. */
  function Put(db: Db, key: string, value: string): (r: Written)
    ensures db.Table? ==> r.reply == Ok(true)
    ensures db.Table? ==> Get(r.db, key) == Ok(value)
    ensures db.Table? ==> forall k :: k != key ==> Get(r.db, k) == Get(db, k)
    ensures db.Table? ==> r.db.Table? && r.db.rows.Keys == db.rows.Keys + {key}
    ensures db.Missing? ==> r.reply == Err(NoTable) && r.db == db
  {
    match db
    case Missing => Written(Err(NoTable), db)
    case Table(rows) => Written(Ok(true), Table(rows[key := value]))
  }

  /** Every key of `keys` has a row. Vacuously true of no keys, even when the
      table is missing, since `multiget` then issues no query at all. */
  predicate AllPresent(db: Db, keys: seq<string>)
  {
    forall i :: 0 <= i < |keys| ==> db.Table? && keys[i] in db.rows
  }

  /** `multiget`: `get` each key in order into a dictionary; the first failing
      `get` aborts the whole call, so no partial dictionary is ever returned. */
  function MultiGet(db: Db, keys: seq<string>): (r: Result<map<string, string>, Error>)
    ensures r.Ok? <==> AllPresent(db, keys)
    ensures r.Ok? ==> r.value.Keys == set k | k in keys
    ensures r.Ok? ==> forall k :: k in r.value ==> Get(db, k) == Ok(r.value[k])
    ensures r.Err? ==> r.error == (if db.Missing? then NoTable else NotFound)
    decreases |keys|
  {
    if |keys| == 0 then Ok(map[])
    else
      match Get(db, keys[0])
      case Err(e) => Err(e)
      case Ok(v) =>
        match MultiGet(db, keys[1..])
        case Err(e) => Err(e)
        case Ok(m) => Ok(m[keys[0] := v])
  }

  /** `bootstrap`: probe with `get("foo")`; a found row or a `KeyError` means
      the table exists and nothing is done, an `OperationalError` means it is
      missing and an empty table is created. */
  function Bootstrap(db: Db): (r: Db)
    ensures r.Table?
    ensures db.Table? ==> r == db
    ensures db.Missing? ==> r.rows == map[]
  {
    match Get(db, ProbeKey)
    case Ok(_) => db
    case Err(NotFound) => db
    case Err(NoTable) => Table(map[])
  }

  /** The file a store opens: the one asked for, or `<hostname>.sdb` when the
      argument is `None` or the empty string (both are false in Python). */
  function ResolveDatafile(datafile: Option<string>, hostname: string): (path: string)
    ensures datafile.Some? && datafile.value != "" ==> path == datafile.value
    ensures datafile.None? || datafile.value == "" ==> path == hostname + DatafileSuffix
  {
    match datafile
    case Some(f) => if f != "" then f else hostname + DatafileSuffix
    case None => hostname + DatafileSuffix
  }

  /** The SQLite files on disk, by path. */
  type Disk = map<string, Db>

  /** The name SQLite opens as a private in-memory database, never a file. */
  const InMemory: string := ":memory:"

  /** What connecting to `path` finds: `:memory:` is always a new, empty
      database; a path with no file yet is created as an empty database; both
      have no `metastore` table. Any other path finds that file's table. */
  function FileAt(disk: Disk, path: string): (db: Db)
    ensures path == InMemory ==> db.Missing?
    ensures path != InMemory && path in disk ==> db == disk[path]
    ensures path !in disk ==> db.Missing?
  {
    if path == InMemory then Missing
    else if path in disk then disk[path]
    else Missing
  }

  /** An open local store: the file it is connected to and its table. */
  datatype Store = Store(datafile: string, db: Db)

  /** `LocalStore(datafile)`: connect to the resolved file, then bootstrap. */
  function Open(datafile: Option<string>, hostname: string, disk: Disk): (s: Store)
    ensures s.datafile == ResolveDatafile(datafile, hostname)
    ensures s.db.Table?
    ensures FileAt(disk, s.datafile).Table? ==> s.db == FileAt(disk, s.datafile)
    ensures FileAt(disk, s.datafile).Missing? ==> s.db.rows == map[]
  {
    var path := ResolveDatafile(datafile, hostname);
    Store(path, Bootstrap(FileAt(disk, path)))
  }

  /** `:memory:` opens empty, even when a file of that name exists. */
  lemma InMemoryOpensEmpty(hostname: string, disk: Disk, key: string)
    ensures var s := Open(Some(InMemory), hostname, disk);
      s.db == Table(map[]) && Get(s.db, key) == Err(NotFound)
  {
  }

  /** A second `put` on the same key replaces the first: the table ends up as
      if only the second had happened. */
  lemma Overwrite(db: Db, key: string, v1: string, v2: string)
    ensures Put(Put(db, key, v1).db, key, v2).db == Put(db, key, v2).db
  {
  }

  /** `put` does not disturb a `multiget` whose batch avoids its key: the
      batch succeeds or fails as before, with the same values. */
  lemma {:induction false} PutKeepsOtherMultiGet(db: Db, key: string, value: string, keys: seq<string>)
    requires key !in keys
    ensures MultiGet(Put(db, key, value).db, keys) == MultiGet(db, keys)
    decreases |keys|
  {
    if |keys| > 0 {
      PutKeepsOtherMultiGet(db, key, value, keys[1..]);
    }
  }

  /** `bootstrap` run a second time changes nothing. */
  lemma BootstrapIdempotent(db: Db)
    ensures Bootstrap(Bootstrap(db)) == Bootstrap(db)
  {
  }

  /** A freshly created table answers `KeyError` to every key. */
  lemma FreshTableIsEmpty(key: string)
    ensures Get(Bootstrap(Missing), key) == Err(NotFound)
  {
  }

  /** If some key of the batch has no row, `multiget` fails as a whole. */
  lemma MultiGetAllOrNothing(db: Db, keys: seq<string>, i: nat)
    requires i < |keys| && Get(db, keys[i]).Err?
    ensures MultiGet(db, keys).Err?
  {
  }

  /** A usage scenario on an empty store: `put("foo", "bar")`, then
      `get("foo")`, `get("baz")` and two `multiget`s. It is one instance of
      Put's and MultiGet's contracts, not a separate property. */
  lemma Scenario()
    ensures var w := Put(Table(map[]), "foo", "bar");
      && w.reply == Ok(true)
      && Get(w.db, "foo") == Ok("bar")
      && Get(w.db, "baz") == Err(NotFound)
      && MultiGet(w.db, ["foo", "baz"]) == Err(NotFound)
      && MultiGet(w.db, ["foo"]) == Ok(map["foo" := "bar"])
  {
  }
}
