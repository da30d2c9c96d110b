/**
 * The callback-table builder of `Fusepp::Fuse<T>`.
 *
 * A handler type T is described by the members it redeclares: for each
 * operation kind it either leaves the base `Fuse<T>` static in place (whose
 * value is nullptr) or declares its own member, whose value is a handler
 * address or null. The static `fuse_operations` table of T is zeroed and
 * then loaded slot by slot; None stands for a null slot.
 */
module FuseAdapter {
  import opened Wrappers

  /** Every function slot of libfuse's `struct fuse_operations`. */
  datatype OpKind =
    | Getattr | Readlink | Getdir | Mknod | Mkdir | Unlink | Rmdir | Symlink
    | Rename | Link | Chmod | Chown | Truncate | Utime | Open | Read | Write
    | Statfs | Flush | Release | Fsync | Setxattr | Getxattr | Listxattr
    | Removexattr | Opendir | Readdir | Releasedir | Fsyncdir | Init | Destroy
    | Access | Create | Ftruncate | Fgetattr
    // slots of the host's table that `load_operations` never assigns
    | Lock | Utimens | Bmap | Ioctl | Poll | WriteBuf | ReadBuf | Flock | Fallocate

  /** The 35 slots `load_operations` assigns. */
  predicate IsLoaded(k: OpKind) {
    !(k.Lock? || k.Utimens? || k.Bmap? || k.Ioctl? || k.Poll? ||
      k.WriteBuf? || k.ReadBuf? || k.Flock? || k.Fallocate?)
  }

  /** The address of a handler function. */
  datatype HandlerId = HandlerId(address: nat)

  /**
   * A handler type: for each operation kind T redeclares, the value of its
   * member (a handler, or null). Kinds that are not keys are inherited.
   */
  type HandlerType = map<OpKind, Option<HandlerId>>

  /** The base class statics: every one of them is initialised to nullptr. */
  function BaseMember(k: OpKind): Option<HandlerId> {
    None
  }

  /** `T::name`: T's own member when it redeclares one, otherwise the base static. */
  function Member(t: HandlerType, k: OpKind): Option<HandlerId> {
    if k in t then t[k] else BaseMember(k)
  }

  /** The slot a freshly built table holds for kind k. */
  function Expected(t: HandlerType, k: OpKind): Option<HandlerId> {
    if IsLoaded(k) then Member(t, k) else None
  }

  /**
   * A slot of the built table is populated exactly when the slot is one the
   * loader assigns and T supplies its own non-null member for it.
   */
  lemma PopulatedIff(t: HandlerType, k: OpKind)
    ensures Expected(t, k).Some? <==> IsLoaded(k) && k in t && t[k].Some?
    ensures Expected(t, k).Some? ==> Expected(t, k) == t[k]
  {
  }

  /** A handler type that overrides only `read` and `getattr` gets exactly those two slots. */
  lemma OnlyOverriddenSlots(read: HandlerId, getattr: HandlerId, k: OpKind)
    ensures var t := map[Read := Some(read), Getattr := Some(getattr)];
      && (Expected(t, k).Some? <==> k == Read || k == Getattr)
      && Expected(t, Read) == Some(read)
      && Expected(t, Getattr) == Some(getattr)
  {
  }

  /**
   * `struct fuse_operations`: one function slot per operation kind, None
   * standing for a null pointer.
   */
  datatype FuseOperations = FuseOperations(
    getattr: Option<HandlerId>,
    readlink: Option<HandlerId>,
    getdir: Option<HandlerId>,
    mknod: Option<HandlerId>,
    mkdir: Option<HandlerId>,
    unlink: Option<HandlerId>,
    rmdir: Option<HandlerId>,
    symlink: Option<HandlerId>,
    rename: Option<HandlerId>,
    link: Option<HandlerId>,
    chmod: Option<HandlerId>,
    chown: Option<HandlerId>,
    truncate: Option<HandlerId>,
    utime: Option<HandlerId>,
    open: Option<HandlerId>,
    read: Option<HandlerId>,
    write: Option<HandlerId>,
    statfs: Option<HandlerId>,
    flush: Option<HandlerId>,
    release: Option<HandlerId>,
    fsync: Option<HandlerId>,
    setxattr: Option<HandlerId>,
    getxattr: Option<HandlerId>,
    listxattr: Option<HandlerId>,
    removexattr: Option<HandlerId>,
    opendir: Option<HandlerId>,
    readdir: Option<HandlerId>,
    releasedir: Option<HandlerId>,
    fsyncdir: Option<HandlerId>,
    init: Option<HandlerId>,
    destroy: Option<HandlerId>,
    access: Option<HandlerId>,
    create: Option<HandlerId>,
    ftruncate: Option<HandlerId>,
    fgetattr: Option<HandlerId>,
    lock: Option<HandlerId>,
    utimens: Option<HandlerId>,
    bmap: Option<HandlerId>,
    ioctl: Option<HandlerId>,
    poll: Option<HandlerId>,
    writeBuf: Option<HandlerId>,
    readBuf: Option<HandlerId>,
    flock: Option<HandlerId>,
    fallocate: Option<HandlerId>)

  /** The table with every slot null, as `memset` to zero leaves it. */
  const NullOperations: FuseOperations := FuseOperations(None, None, None, None, None, None, None, None, None, None, None, None, None, None, None, None, None, None, None, None, None, None, None, None, None, None, None, None, None, None, None, None, None, None, None, None, None, None, None, None, None, None, None, None)

  /** The slot of kind k. */
  function Slot(ops: FuseOperations, k: OpKind): Option<HandlerId> {
    match k
      case Getattr => ops.getattr
      case Readlink => ops.readlink
      case Getdir => ops.getdir
      case Mknod => ops.mknod
      case Mkdir => ops.mkdir
      case Unlink => ops.unlink
      case Rmdir => ops.rmdir
      case Symlink => ops.symlink
      case Rename => ops.rename
      case Link => ops.link
      case Chmod => ops.chmod
      case Chown => ops.chown
      case Truncate => ops.truncate
      case Utime => ops.utime
      case Open => ops.open
      case Read => ops.read
      case Write => ops.write
      case Statfs => ops.statfs
      case Flush => ops.flush
      case Release => ops.release
      case Fsync => ops.fsync
      case Setxattr => ops.setxattr
      case Getxattr => ops.getxattr
      case Listxattr => ops.listxattr
      case Removexattr => ops.removexattr
      case Opendir => ops.opendir
      case Readdir => ops.readdir
      case Releasedir => ops.releasedir
      case Fsyncdir => ops.fsyncdir
      case Init => ops.init
      case Destroy => ops.destroy
      case Access => ops.access
      case Create => ops.create
      case Ftruncate => ops.ftruncate
      case Fgetattr => ops.fgetattr
      case Lock => ops.lock
      case Utimens => ops.utimens
      case Bmap => ops.bmap
      case Ioctl => ops.ioctl
      case Poll => ops.poll
      case WriteBuf => ops.writeBuf
      case ReadBuf => ops.readBuf
      case Flock => ops.flock
      case Fallocate => ops.fallocate
  }

  /**
   * The table `load_operations` leaves behind when it starts from before:
   * its 35 slots hold T's members, the remaining ones are before's.
   */
  function Load(t: HandlerType, before: FuseOperations): FuseOperations {
    FuseOperations(
      Member(t, Getattr),
      Member(t, Readlink),
      Member(t, Getdir),
      Member(t, Mknod),
      Member(t, Mkdir),
      Member(t, Unlink),
      Member(t, Rmdir),
      Member(t, Symlink),
      Member(t, Rename),
      Member(t, Link),
      Member(t, Chmod),
      Member(t, Chown),
      Member(t, Truncate),
      Member(t, Utime),
      Member(t, Open),
      Member(t, Read),
      Member(t, Write),
      Member(t, Statfs),
      Member(t, Flush),
      Member(t, Release),
      Member(t, Fsync),
      Member(t, Setxattr),
      Member(t, Getxattr),
      Member(t, Listxattr),
      Member(t, Removexattr),
      Member(t, Opendir),
      Member(t, Readdir),
      Member(t, Releasedir),
      Member(t, Fsyncdir),
      Member(t, Init),
      Member(t, Destroy),
      Member(t, Access),
      Member(t, Create),
      Member(t, Ftruncate),
      Member(t, Fgetattr),
      before.lock,
      before.utimens,
      before.bmap,
      before.ioctl,
      before.poll,
      before.writeBuf,
      before.readBuf,
      before.flock,
      before.fallocate)
  }

  /** Loading writes each of the 35 slots with T's member and leaves every other slot alone. */
  lemma LoadSlot(t: HandlerType, before: FuseOperations, k: OpKind)
    ensures Slot(Load(t, before), k) == if IsLoaded(k) then Member(t, k) else Slot(before, k)
  {
  }

  /** The static `_operations` table of one handler type. */
  class OperationsTable {
    var table: FuseOperations

    /** Static storage starts zero-initialised: every slot is null. */
    constructor ()
      ensures forall k :: Slot(table, k) == None
    {
      table := NullOperations;
    }

    /** The memset in the constructor: the whole table becomes zero. */
    method Zero()
      modifies this
      ensures forall k :: Slot(table, k) == None
    {
      table := NullOperations;
    }
  }

  /** Each handler type's table is its own: distinct types never share one. */
  predicate OneTablePerType(tables: map<HandlerType, OperationsTable>)
  {
    forall t1, t2 | t1 in tables && t2 in tables :: t1 != t2 ==> tables[t1] != tables[t2]
  }

  /**
   * The statics `Fuse<T>::_operations` of the program, one per handler type:
   * every instantiation of the template has a table of its own.
   */
  class Registry {
    const tables: map<HandlerType, OperationsTable>

    predicate Valid()
    {
      OneTablePerType(tables)
    }

    constructor (tables: map<HandlerType, OperationsTable>)
      requires OneTablePerType(tables)
      ensures this.tables == tables && Valid()
    {
      this.tables := tables;
    }
  }

  /** The host's per-call context: what `fuse_main` was handed. */
  class Host {
    var args: seq<string>
    var operations: OperationsTable?
    var privateData: Fuse?

    constructor ()
      ensures args == [] && operations == null && privateData == null
    {
      args := [];
      operations := null;
      privateData := null;
    }
  }

  /** `Fusepp::Fuse<T>`: one instance per mount; the table belongs to the type. */
  class Fuse {
    const handler: HandlerType
    const registry: Registry
    const operations: OperationsTable

    /** The instance works on the static table of its own handler type. */
    predicate Valid()
    {
      registry.Valid() && handler in registry.tables && operations == registry.tables[handler]
    }

    /**
     * `Fuse()`: zeroes the type's table, then loads it. Whatever the table
     * held before, afterwards every slot is the one the type determines,
     * so constructing a second instance of the same type rebuilds the same
     * table; the tables of other types are not touched.
     */
    constructor (handler: HandlerType, registry: Registry)
      requires registry.Valid() && handler in registry.tables
      modifies registry.tables[handler]
      ensures this.handler == handler && this.registry == registry && Valid()
      ensures forall k :: Slot(operations.table, k) == Expected(handler, k)
    {
      this.handler := handler;
      this.registry := registry;
      this.operations := registry.tables[handler];
      new;
      operations.Zero();
      LoadOperations(handler, operations);
    }

    /** `Operations()`: the static table of the instance's handler type. */
    function Operations(): (r: OperationsTable)
      requires Valid()
      ensures r == registry.tables[handler]
    {
      operations
    }

    /**
     * `load_operations()`: 35 assignments of T's member k to slot k; each writes
     * its own slot, and the slots it does not name keep their values.
     */
    static method LoadOperations(t: HandlerType, ops: OperationsTable)
      modifies ops
      ensures ops.table == Load(t, old(ops.table))
      ensures forall k :: Slot(ops.table, k) == if IsLoaded(k) then Member(t, k) else old(Slot(ops.table, k))
    {
      var tbl := ops.table;
      tbl := tbl.(readlink := Member(t, Readlink));
      tbl := tbl.(getattr := Member(t, Getattr));
      tbl := tbl.(getdir := Member(t, Getdir));
      tbl := tbl.(mknod := Member(t, Mknod));
      tbl := tbl.(mkdir := Member(t, Mkdir));
      tbl := tbl.(unlink := Member(t, Unlink));
      tbl := tbl.(rmdir := Member(t, Rmdir));
      tbl := tbl.(symlink := Member(t, Symlink));
      tbl := tbl.(rename := Member(t, Rename));
      tbl := tbl.(link := Member(t, Link));
      tbl := tbl.(chmod := Member(t, Chmod));
      tbl := tbl.(chown := Member(t, Chown));
      tbl := tbl.(truncate := Member(t, Truncate));
      tbl := tbl.(utime := Member(t, Utime));
      tbl := tbl.(open := Member(t, Open));
      tbl := tbl.(read := Member(t, Read));
      tbl := tbl.(write := Member(t, Write));
      tbl := tbl.(statfs := Member(t, Statfs));
      tbl := tbl.(flush := Member(t, Flush));
      tbl := tbl.(release := Member(t, Release));
      tbl := tbl.(fsync := Member(t, Fsync));
      tbl := tbl.(setxattr := Member(t, Setxattr));
      tbl := tbl.(getxattr := Member(t, Getxattr));
      tbl := tbl.(listxattr := Member(t, Listxattr));
      tbl := tbl.(removexattr := Member(t, Removexattr));
      tbl := tbl.(readdir := Member(t, Readdir));
      tbl := tbl.(opendir := Member(t, Opendir));
      tbl := tbl.(releasedir := Member(t, Releasedir));
      tbl := tbl.(fsyncdir := Member(t, Fsyncdir));
      tbl := tbl.(init := Member(t, Init));
      tbl := tbl.(destroy := Member(t, Destroy));
      tbl := tbl.(access := Member(t, Access));
      tbl := tbl.(create := Member(t, Create));
      tbl := tbl.(ftruncate := Member(t, Ftruncate));
      tbl := tbl.(fgetattr := Member(t, Fgetattr));
      ops.table := tbl;
      forall k ensures Slot(ops.table, k) == if IsLoaded(k) then Member(t, k) else old(Slot(ops.table, k)) {
        LoadSlot(t, old(ops.table), k);
      }
    }

    /**
     * `run(argc, argv)`: hands the type's table and this instance (as the
     * private data) to `fuse_main`, and returns the host's status unchanged.
     * `fuse_main` itself is foreign; its status is the parameter hostStatus.
     */
    method Run(host: Host, args: seq<string>, hostStatus: int) returns (status: int)
      modifies host
      ensures host.args == args && host.operations == operations && host.privateData == this
      ensures status == hostStatus
    {
      host.args := args;
      host.operations := operations;
      host.privateData := this;
      status := hostStatus;
    }

    /** `_this()`: the private data the host was given by `run`. */
    static function This(host: Host): (r: Fuse?)
      reads host
      ensures r == host.privateData
    {
      host.privateData
    }
  }

  /** After `run` registers an instance, `_this()` answers that instance. */
  method RunThenResolve(f: Fuse, host: Host, args: seq<string>, hostStatus: int)
    returns (status: int, resolved: Fuse?)
    requires f.Valid()
    modifies host
    ensures status == hostStatus && resolved == f
    ensures host.args == args && host.operations == f.Operations()
  {
    status := f.Run(host, args, hostStatus);
    resolved := Fuse.This(host);
  }

  /**
   * Two instances registered in one program share a table exactly when they
   * are instances of the same handler type.
   */
  lemma SameTypeSameTable(f1: Fuse, f2: Fuse)
    requires f1.Valid() && f2.Valid() && f1.registry == f2.registry
    ensures f1.handler == f2.handler <==> f1.Operations() == f2.Operations()
  {
  }

  /**
   * Constructing a second instance of a type hands out the same table as the
   * first, loaded the same way.
   */
  method ConstructTwice(h: HandlerType, registry: Registry) returns (f1: Fuse, f2: Fuse)
    requires registry.Valid() && h in registry.tables
    modifies registry.tables[h]
    ensures f1.Valid() && f2.Valid() && f1.handler == f2.handler == h
    ensures f1.Operations() == f2.Operations() == registry.tables[h]
    ensures forall k :: Slot(f2.Operations().table, k) == Expected(h, k)
  {
    f1 := new Fuse(h, registry);
    f2 := new Fuse(h, registry);
  }
}
