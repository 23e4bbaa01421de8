/** The module-level store binding of metastore: a process-wide `_store` that
    is bound at most once, lazily to a local store or explicitly to a remote
    proxy, and the `get`/`put`/`multiget` helpers that delegate to it. The
    remote proxy only forwards calls over XML-RPC, so it is kept opaque: a
    call on a remote binding is modelled as the request it forwards. */
module Metastore {
  import opened Wrappers
  import LocalStore

  /** The port a remote proxy uses when none (or 0) is given. */
  const DefaultPort: int := 8077

  /** What `_store` refers to once it is set. */
  datatype Handle = Local(store: LocalStore.Store) | Remote(addr: string, port: int)

  /** The global `_store`: `None` or a store. */
  datatype Binding = Unbound | Bound(handle: Handle)

  /** Where a handle sends its calls: which file, or which server. This is
      what a binding must never change once set; the contents of a local file
      do change, through `put`. */
  datatype Target = LocalFile(path: string) | RemoteServer(addr: string, port: int)

  function TargetOf(h: Handle): Target
  {
    match h
    case Local(s) => LocalFile(s.datafile)
    case Remote(addr, port) => RemoteServer(addr, port)
  }

  /** What the process finds when it first opens a local store: its host name
      (which names the default file) and the SQLite files on disk. */
  datatype Env = Env(hostname: string, disk: LocalStore.Disk)

  /** A bound local store has its table: it was bootstrapped when opened. */
  predicate Valid(b: Binding)
  {
    b.Bound? && b.handle.Local? ==> b.handle.store.db.Table?
  }

  /** `RemoteStore`'s port: the one given, or the default when it is `None`
      or 0 (both are false in Python). */
  function ResolvePort(port: Option<int>): (p: int)
    ensures port.Some? && port.value != 0 ==> p == port.value
    ensures port.None? || port.value == 0 ==> p == DefaultPort
  {
    match port
    case Some(n) => if n != 0 then n else DefaultPort
    case None => DefaultPort
  }

  /** `get_store(datafile)`: bind a freshly opened local store when unbound;
      once bound, keep the binding and ignore `datafile`. The store returned
      is the handle of the resulting binding. */
  function GetStore(b: Binding, datafile: Option<string>, env: Env): (r: Binding)
    ensures r.Bound?
    ensures b.Bound? ==> r == b
    ensures b.Unbound? ==> (
      && r.handle.Local?
      && Valid(r)
      && r.handle.store.datafile == LocalStore.ResolveDatafile(datafile, env.hostname)
      && (LocalStore.FileAt(env.disk, r.handle.store.datafile).Table? ==>
            r.handle.store.db == LocalStore.FileAt(env.disk, r.handle.store.datafile))
      && (LocalStore.FileAt(env.disk, r.handle.store.datafile).Missing? ==>
            r.handle.store.db.rows == map[]))
  {
    match b
    case Unbound => Bound(Local(LocalStore.Open(datafile, env.hostname, env.disk)))
    case Bound(_) => b
  }

  /** The `RuntimeError` of `use_remote`. */
  datatype BindError = AlreadyBound

  /** What `use_remote` answers, together with the binding afterwards. */
  datatype Attempt = Attempt(reply: Result<(), BindError>, binding: Binding)

  /** `use_remote(addr, port)`: bind a remote proxy, but only when unbound;
      on a bound `_store` (local or remote) fail and leave it as it was. */
  function UseRemote(b: Binding, addr: string, port: Option<int>): (r: Attempt)
    ensures r.reply.Ok? <==> b.Unbound?
    ensures b.Bound? ==> r.reply == Err(AlreadyBound) && r.binding == b
    ensures b.Unbound? ==> (
      && r.binding.Bound?
      && r.binding.handle.Remote?
      && TargetOf(r.binding.handle) == RemoteServer(addr, ResolvePort(port)))
  {
    match b
    case Unbound => Attempt(Ok(()), Bound(Remote(addr, ResolvePort(port))))
    case Bound(_) => Attempt(Err(AlreadyBound), b)
  }

  /** A call a remote proxy forwards unchanged to its server. */
  datatype Call = GetCall(key: string) | PutCall(key: string, value: string) | MultiGetCall(keys: seq<string>)

  /** The result of a helper: the local store's answer, or the call handed to
      the remote server, whose answer this model does not see. */
  datatype Answer<+T> = Done(result: Result<T, LocalStore.Error>) | Forwarded(addr: string, port: int, call: Call)

  /** A helper's answer and the binding it leaves behind. */
  datatype Step<+T> = Step(binding: Binding, answer: Answer<T>)

  /** `get(key)`: `get_store().get(key)`. */
  function Get(b: Binding, key: string, env: Env): (r: Step<string>)
    ensures r.binding == GetStore(b, None, env)
    ensures r.binding.handle.Local? ==>
      r.answer == Done(LocalStore.Get(r.binding.handle.store.db, key))
    ensures r.binding.handle.Remote? ==>
      r.answer == Forwarded(r.binding.handle.addr, r.binding.handle.port, GetCall(key))
    ensures Valid(b) && r.answer.Done? ==> r.answer.result != Err(LocalStore.NoTable)
  {
    var bound := GetStore(b, None, env);
    match bound.handle
    case Local(s) => Step(bound, Done(LocalStore.Get(s.db, key)))
    case Remote(addr, port) => Step(bound, Forwarded(addr, port, GetCall(key)))
  }

  /** `put(key, value)`: `get_store().put(key, value)`, whose `True` the helper
      drops (it returns `None`). */
  function Put(b: Binding, key: string, value: string, env: Env): (r: Step<()>)
    ensures var bound := GetStore(b, None, env);
      && r.binding.Bound?
      && TargetOf(r.binding.handle) == TargetOf(bound.handle)
      && (bound.handle.Remote? ==>
            r == Step(bound, Forwarded(bound.handle.addr, bound.handle.port, PutCall(key, value))))
    ensures Valid(b) ==> Valid(r.binding)
    ensures Valid(b) && r.binding.handle.Local? ==> (
      && r.answer == Done(Ok(()))
      && r.binding.handle.store.db == LocalStore.Put(GetStore(b, None, env).handle.store.db, key, value).db)
  {
    var bound := GetStore(b, None, env);
    match bound.handle
    case Local(s) =>
      var w := LocalStore.Put(s.db, key, value);
      var reply := match w.reply
        case Ok(_) => Ok(())
        case Err(e) => Err(e);
      Step(Bound(Local(LocalStore.Store(s.datafile, w.db))), Done(reply))
    case Remote(addr, port) => Step(bound, Forwarded(addr, port, PutCall(key, value)))
  }

  /** `multiget(keys)`: `get_store().multiget(keys)`. */
  function MultiGet(b: Binding, keys: seq<string>, env: Env): (r: Step<map<string, string>>)
    ensures r.binding == GetStore(b, None, env)
    ensures r.binding.handle.Local? ==>
      r.answer == Done(LocalStore.MultiGet(r.binding.handle.store.db, keys))
    ensures r.binding.handle.Remote? ==>
      r.answer == Forwarded(r.binding.handle.addr, r.binding.handle.port, MultiGetCall(keys))
    ensures Valid(b) && r.answer.Done? ==> r.answer.result != Err(LocalStore.NoTable)
  {
    var bound := GetStore(b, None, env);
    match bound.handle
    case Local(s) => Step(bound, Done(LocalStore.MultiGet(s.db, keys)))
    case Remote(addr, port) => Step(bound, Forwarded(addr, port, MultiGetCall(keys)))
  }

  /** One call a program makes on the metastore module. */
  datatype Command =
    | AcquireLocal(datafile: Option<string>)
    | ConnectRemote(addr: string, port: Option<int>)
    | GetKey(key: string)
    | PutKey(key: string, value: string)
    | MultiGetKeys(keys: seq<string>)

  /** The binding after one command (its answer is ignored). */
  function Exec(b: Binding, c: Command, env: Env): Binding
  {
    match c
    case AcquireLocal(datafile) => GetStore(b, datafile, env)
    case ConnectRemote(addr, port) => UseRemote(b, addr, port).binding
    case GetKey(key) => Get(b, key, env).binding
    case PutKey(key, value) => Put(b, key, value, env).binding
    case MultiGetKeys(keys) => MultiGet(b, keys, env).binding
  }

  /** The binding after a whole sequence of commands, first to last. */
  function Run(b: Binding, cmds: seq<Command>, env: Env): (r: Binding)
    ensures b.Bound? ==> r.Bound? && TargetOf(r.handle) == TargetOf(b.handle)
    ensures Valid(b) ==> Valid(r)
    decreases |cmds|
  {
    if |cmds| == 0 then b else Run(Exec(b, cmds[0], env), cmds[1..], env)
  }

  /** Reference contents: the rows after applying, in order, just the `put`s
      of a command sequence; every other command leaves the rows alone. */
  function ApplyPuts(rows: map<string, string>, cmds: seq<Command>): map<string, string>
    decreases |cmds|
  {
    if |cmds| == 0 then rows
    else
      var next := match cmds[0]
        case PutKey(key, value) => rows[key := value]
        case _ => rows;
      ApplyPuts(next, cmds[1..])
  }

  /** On a local binding, the table after any program holds exactly what its
      `put`s wrote, the latest write to a key winning: `get`, `multiget`,
      `get_store` and a refused `use_remote` change nothing. */
  lemma {:induction false} RunKeepsOnlyPuts(b: Binding, cmds: seq<Command>, env: Env)
    requires b.Bound? && b.handle.Local? && b.handle.store.db.Table?
    ensures var r := Run(b, cmds, env);
      r.handle.Local? && r.handle.store.db == LocalStore.Table(ApplyPuts(b.handle.store.db.rows, cmds))
    decreases |cmds|
  {
    if |cmds| > 0 {
      var next := Exec(b, cmds[0], env);
      assert next.handle.Local? && next.handle.store.db.Table?;
      RunKeepsOnlyPuts(next, cmds[1..], env);
    }
  }

  /** Single assignment: whatever a program does after `_store` is bound,
      `use_remote` keeps failing and leaves the binding where it was. */
  lemma {:induction false} RebindAlwaysFails(b: Binding, cmds: seq<Command>, env: Env, addr: string, port: Option<int>)
    requires b.Bound?
    ensures var after := Run(b, cmds, env);
      && UseRemote(after, addr, port).reply == Err(AlreadyBound)
      && TargetOf(UseRemote(after, addr, port).binding.handle) == TargetOf(b.handle)
  {
  }

  /** Any helper call on an unbound module binds the default local file, so
      a later `use_remote` fails. */
  lemma HelperBindsDefaultFile(key: string, env: Env, addr: string, port: Option<int>)
    ensures var b := Get(Unbound, key, env).binding;
      && TargetOf(b.handle) == LocalFile(env.hostname + LocalStore.DatafileSuffix)
      && UseRemote(b, addr, port).reply == Err(AlreadyBound)
  {
  }

  /** `get_store("a.sdb")` then `get_store("b.sdb")` both refer to "a.sdb". */
  lemma LaterDatafileIgnored(first: string, second: Option<string>, env: Env)
    requires first != ""
    ensures var b := GetStore(Unbound, Some(first), env);
      GetStore(b, second, env) == b && TargetOf(b.handle) == LocalFile(first)
  {
  }

  /** Through the module helpers: after `put(k, v)` on a local binding,
      `get(k)` answers `v`. */
  lemma HelperReadAfterWrite(b: Binding, key: string, value: string, env: Env)
    requires Valid(b)
    ensures var p := Put(b, key, value, env);
      p.binding.handle.Local? ==> Get(p.binding, key, env).answer == Done(Ok(value))
  {
  }

  /** Calling `use_remote` twice: the second call fails, the first binding
      stays, and helper calls go on being forwarded to the first server. */
  lemma UseRemoteTwice(a1: string, p1: Option<int>, a2: string, p2: Option<int>, key: string, env: Env)
    ensures var first := UseRemote(Unbound, a1, p1);
      var second := UseRemote(first.binding, a2, p2);
      && first.reply.Ok?
      && second.reply == Err(AlreadyBound)
      && second.binding == first.binding
      && Get(second.binding, key, env).answer == Forwarded(a1, ResolvePort(p1), GetCall(key))
  {
  }
}
