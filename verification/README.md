# metastore in Dafny

A model of metastore, a minimal key-value store that keeps its data in one
SQLite table and can also be reached through an XML-RPC proxy. Two parts of
`metastore/__init__.py` are modelled:

- `LocalStore` (module `LocalStore`, file `local_store.dfy`). The table
  `metastore(k PRIMARY KEY, v)` is a `Db`: either `Missing` (the table does
  not exist, which SQLite reports as `OperationalError`) or `Table(rows)`
  with `rows: map<string, string>`. The primary key makes it a map. `get`,
  `put`, `multiget` and `bootstrap` are pure functions over a `Db`.
  Exceptions become the `Err` side of a `Result`: `NotFound` stands for
  `KeyError` and `NoTable` for `OperationalError`. Opening a store resolves
  the file name, looks the file up on a `Disk` (a map from path to `Db`), and
  bootstraps it. As with `sqlite3.connect`, a path with no file yet opens as
  an empty database without the table. So does the special name `:memory:`,
  which never reads a file.
- The module-level binding (module `Metastore`, file `metastore.dfy`). The
  global `_store` is a `Binding`: `Unbound`, or `Bound` to a `Local` store or
  a `Remote(addr, port)` proxy. The functions `get_store` and `use_remote`
  and the `get`/`put`/`multiget` helpers map a binding to the next binding
  plus an answer. The remote proxy is opaque. A helper call on a remote
  binding yields `Forwarded(addr, port, call)`: the request the proxy hands
  to its server unchanged. A sequence of calls is a `seq<Command>` run by
  `Run`. The single-assignment rule is a property of `Run`: once bound, the
  binding stays bound to the same file or server.

The host name behind the default file name `<hostname>.sdb` is a parameter
(`Env.hostname`), and so is the state of the files on disk (`Env.disk`).

Notes on the code:
- `multiget` raises a bare `KeyError`, which does not name the missing key.
  So `MultiGet` reports only `NotFound` (or `NoTable`).
- The module-level `put` helper returns `None`, not `LocalStore.put`'s
  `True`. So `Metastore.Put` answers `Ok(())`.
- `multiget([])` issues no query. It returns `{}` even when the table is
  missing.

## Model

| member | source | states |
|---|---|---|
| LocalStore.Get | metastore/__init__.py:44-54 | a value is returned exactly when the table exists and has a row for the key, and it is that row's value; a missing row is `KeyError`, a missing table is `OperationalError` |
| LocalStore.Put | metastore/__init__.py:56-64 | on an existing table `put` answers `True`, a following `get` of the key returns the new value, every other key reads as before, and the key set grows by just this key; on a missing table it fails and changes nothing |
| LocalStore.MultiGet | metastore/__init__.py:66-74 | the call succeeds exactly when every key of the batch has a row; the result then has exactly the batch's keys (duplicates collapse), each mapped to what `get` answers; otherwise it fails as a whole with `KeyError`, or `OperationalError` when the table is missing |
| LocalStore.Bootstrap | metastore/__init__.py:25-42 | after bootstrap the table exists; an existing table, with or without the probe key, is left untouched; a missing one is created empty |
| LocalStore.ResolveDatafile | metastore/__init__.py:21 | a non-empty file name is used as given; `None` or an empty name falls back to `<hostname>.sdb` |
| LocalStore.FileAt | metastore/__init__.py:22 | connecting to an existing file finds that file's table (or its absence); connecting to a path with no file yet, or to `:memory:`, finds no table |
| LocalStore.Open | metastore/__init__.py:19-23 | an opened store is connected to the resolved file and always has its table; a file that has the table keeps its rows, and a file without it (new or existing) gets an empty table |
| LocalStore.InMemoryOpensEmpty | metastore/__init__.py:19-23 | a store opened on `:memory:` starts with an empty table and answers `KeyError` for every key, whatever files exist |
| LocalStore.Overwrite | metastore/__init__.py:62 | `put(k, v1)` then `put(k, v2)` leaves the same table as `put(k, v2)` alone: one value per key, no history |
| LocalStore.PutKeepsOtherMultiGet | metastore/__init__.py:56-74 | a `put` leaves every `multiget` whose batch avoids its key exactly as it was: same success or failure, same values |
| LocalStore.BootstrapIdempotent | metastore/__init__.py:25-42 | bootstrapping twice is the same as bootstrapping once |
| LocalStore.FreshTableIsEmpty | metastore/__init__.py:37-42 | a table created by bootstrap answers `KeyError` for every key |
| LocalStore.MultiGetAllOrNothing | metastore/__init__.py:69-73 | one missing key makes the whole `multiget` fail |
| LocalStore.Scenario | metastore/__init__.py:44-74 | on an empty table: `put("foo", "bar")` is `True`, `get("foo")` is `"bar"`, `get("baz")` fails, `multiget(["foo", "baz"])` fails, `multiget(["foo"])` is `{"foo": "bar"}` |
| Metastore.ResolvePort | metastore/__init__.py:110-112 | a remote proxy uses the given port, or 8077 when the port is `None` or 0 |
| Metastore.GetStore | metastore/__init__.py:152-162 | the result is always bound; an existing binding is returned unchanged whatever `datafile` says; an unbound module binds a freshly opened local store on the resolved file, which has its table: the file's existing rows when it had the table, an empty table otherwise |
| Metastore.UseRemote | metastore/__init__.py:164-175 | succeeds exactly when unbound and then binds a remote proxy for the address and resolved port; when bound (local or remote) it raises `RuntimeError` and the binding is unchanged |
| Metastore.Get | metastore/__init__.py:178-179 | the helper first binds as `get_store()` would, then answers as the bound local store's `get`, or forwards the call to the bound server; on a bound, bootstrapped store it never reports a missing table |
| Metastore.Put | metastore/__init__.py:181-182 | the helper keeps the binding's file or server; on a local binding it applies the store's `put` and answers `None`; on a remote binding it forwards the call; a bound local store keeps its table |
| Metastore.MultiGet | metastore/__init__.py:184-185 | the helper binds as `get_store()` would, then answers as the bound local store's `multiget`, or forwards the call; it never reports a missing table on a bootstrapped store |
| Metastore.Run | metastore/__init__.py:151-185 | over any sequence of calls, a bound `_store` stays bound to the same file or server, and a bound local store keeps its table |
| Metastore.RunKeepsOnlyPuts | metastore/__init__.py:178-185 | on a local binding, after any sequence of calls the table holds exactly what the `put`s wrote in order, the latest write to a key winning; reads, `get_store` and a refused `use_remote` change nothing |
| Metastore.RebindAlwaysFails | metastore/__init__.py:164-175 | whatever a program does after `_store` is bound, `use_remote` still fails and the binding still points where it first did |
| Metastore.HelperBindsDefaultFile | metastore/__init__.py:152-179 | a helper call on an unbound module binds the local file `<hostname>.sdb`, so a later `use_remote` fails |
| Metastore.LaterDatafileIgnored | metastore/__init__.py:152-162 | `get_store("a.sdb")` then `get_store(anything)` both refer to `a.sdb` |
| Metastore.HelperReadAfterWrite | metastore/__init__.py:178-182 | through the module helpers on a local binding, `put(k, v)` then `get(k)` answers `v` |
| Metastore.UseRemoteTwice | metastore/__init__.py:164-179 | a second `use_remote` fails, the first binding stays, and helper calls keep going to the first server |

## Left out

- The SQLite connection, cursors, commits and SQL text. The engine is
  abstracted to the `Db` map plus the "table exists" flag. Durability across
  restarts is not modelled.
- Backend errors other than a missing table (a locked or corrupt file, I/O
  errors). The code lets them propagate, and the abstract `Db` cannot
  produce them.
- The `varchar(255)` key type. SQLite does not enforce it and the code never
  checks it.
- Strings: a Dafny `string` stands for Python 2 `unicode` text. With the
  default `text_factory`, `sqlite3` refuses a byte string (`str`) holding a
  non-ASCII byte with `ProgrammingError`, so such a `put` or `get` raises
  instead of answering. `get` returns text as `unicode`, whatever type was
  stored.
- Keys and values other than strings. Python callers could pass any value
  SQLite accepts. Because `k` has TEXT affinity, an integer key `1` is
  stored as `'1'` and reaches the same row as the key `"1"`. A `None` key
  is stored as NULL. SQLite does not make NULL keys unique, so two `put`s
  with `None` add two rows, and `get(None)` always raises `KeyError`.
- `MetaServer` and its XML-RPC server loop. This is network I/O.
- `RemoteStore`. Each of its methods forwards to `xmlrpclib.ServerProxy`, so
  a remote binding is an opaque `Remote(addr, port)`. Its answers are not
  modelled: a helper call on it stops at `Forwarded`.
- `DEFAULT_DATAFILE` reading the host name from `os.uname()`. The host name
  is a parameter.
- The `print` calls, the `RuntimeError` message text and the command-line
  entry point.
- Concurrent access to the global `_store`. The code has no locking.
- Metastore.RunKeepsOnlyPuts: assumes the bound file's rows change only
  through this binding's `put`. The model keeps the rows inside the
  binding. Other connections to the same file, such as a `LocalStore` made
  directly or a `MetaServer` on that file, are not modelled. The same
  assumption holds for `Metastore.HelperReadAfterWrite`.
