/**
 * The process state the core reads and changes: environment variables, the
 * logger's level, the directories on disk with their files, and the ordered
 * record of every filesystem change and external command the core makes.
 *
 * The disk is a map from a directory's path to the files directly in it
 * (file name to contents); a sub-directory is a path of its own, written
 * `parent + "/" + name`. Paths are taken as already normalised (no trailing
 * separator, no `.` or `..` components).
 */
module Platform {

  type Path = string
  type Name = string

  /** The files directly inside one directory: name to contents. */
  type Files = map<Name, string>

  /** Every directory on disk, by path. */
  type Disk = map<Path, Files>

  /** One external command: its argument vector and the directory it runs in. */
  datatype Command = Command(argv: seq<string>, cwd: Path)

  /** One step the core takes on the outside world, in the order it takes them. */
  datatype Effect =
    | RemovedTree(root: Path)      // shutil.rmtree(root, ignore_errors=True)
    | RemovedVisible(root: Path)   // the shell command `rm -rf root/*`
    | MadeDir(path: Path)          // Path(path).mkdir(exist_ok=True)
    | Wrote(dir: Path, name: Name) // open(dir / name, "w").write(...)
    | Ran(command: Command)        // subprocess.run(argv, cwd=...)

  /** `p` names something strictly inside the directory `root`. */
  predicate Below(p: Path, root: Path)
  {
    |p| > |root| + 1 && p[..|root| + 1] == root + "/"
  }

  /** `p` is `root` itself or lies inside it. */
  predicate InTree(p: Path, root: Path)
  {
    p == root || Below(p, root)
  }

  /** A name the shell glob `*` does not match. */
  predicate IsHidden(name: Name)
  {
    |name| > 0 && name[0] == '.'
  }

  /** `p` lies inside `root` under an entry whose name does not start with a dot. */
  predicate VisibleBelow(p: Path, root: Path)
  {
    Below(p, root) && p[|root| + 1] != '.'
  }

  /** The disk once the whole tree at `root` is gone; deleting a missing tree changes nothing. */
  function WithoutTree(disk: Disk, root: Path): (r: Disk)
    ensures forall p :: p in r <==> p in disk && !InTree(p, root)
    ensures forall p :: p in r ==> r[p] == disk[p]
  {
    map p | p in disk && !InTree(p, root) :: disk[p]
  }

  /** The files of one directory whose names start with a dot. */
  function HiddenOnly(files: Files): (r: Files)
    ensures forall n :: n in r <==> n in files && IsHidden(n)
    ensures forall n :: n in r ==> r[n] == files[n]
  {
    map n | n in files && IsHidden(n) :: files[n]
  }

  // The disk after the shell command `rm -rf root/*`: every entry of `root`
  // that the glob matches is gone with everything below it; dot-entries and
  // `root` itself stay.
  function WithoutVisible(disk: Disk, root: Path): (r: Disk)
    ensures forall p :: p in r <==> p in disk && !VisibleBelow(p, root)
    ensures root in disk ==> root in r && r[root] == HiddenOnly(disk[root])
    ensures forall p :: p in r && p != root ==> r[p] == disk[p]
  {
    map p | p in disk && !VisibleBelow(p, root) :: if p == root then HiddenOnly(disk[p]) else disk[p]
  }

  /** The state of the process the core runs in. */
  class Host {
    var env: map<string, string>
    var loggerLevel: string
    var disk: Disk
    var trace: seq<Effect>

    constructor (env: map<string, string>, loggerLevel: string, disk: Disk)
      ensures this.env == env && this.loggerLevel == loggerLevel && this.disk == disk
      ensures trace == []
    {
      this.env := env;
      this.loggerLevel := loggerLevel;
      this.disk := disk;
      trace := [];
    }

    /** `Path(path).mkdir(exist_ok=True)`: an existing directory is kept as it is. */
    method MakeDir(path: Path)
      modifies this`disk, this`trace
      ensures path in disk
      ensures path in old(disk) ==> disk == old(disk)
      ensures path !in old(disk) ==> disk == old(disk)[path := map[]]
      ensures trace == old(trace) + [MadeDir(path)]
    {
      if path !in disk {
        disk := disk[path := map[]];
      }
      trace := trace + [MadeDir(path)];
    }

    /** Write `text` to `dir/name`, replacing a file of that name. */
    method WriteFile(dir: Path, name: Name, text: string)
      requires dir in disk
      modifies this`disk, this`trace
      ensures disk == old(disk)[dir := old(disk)[dir][name := text]]
      ensures trace == old(trace) + [Wrote(dir, name)]
    {
      disk := disk[dir := disk[dir][name := text]];
      trace := trace + [Wrote(dir, name)];
    }

    /** `subprocess.run(argv, cwd=cwd)` without `check`: the command's exit status is not looked at. */
    method Run(argv: seq<string>, cwd: Path)
      modifies this`trace
      ensures trace == old(trace) + [Ran(Command(argv, cwd))]
    {
      trace := trace + [Ran(Command(argv, cwd))];
    }
  }

  /** The external commands in a trace, in order. */
  function Commands(trace: seq<Effect>): (r: seq<Command>)
    ensures |r| <= |trace|
    ensures forall c :: c in r <==> Ran(c) in trace
  {
    if trace == [] then []
    else (if trace[0].Ran? then [trace[0].command] else []) + Commands(trace[1..])
  }

  /** Extracting the commands distributes over concatenation of traces. */
  lemma {:induction false} CommandsAppend(a: seq<Effect>, b: seq<Effect>)
    ensures Commands(a + b) == Commands(a) + Commands(b)
  {
    if a == [] {
      assert a + b == b;
    } else {
      assert (a + b)[1..] == a[1..] + b;
      CommandsAppend(a[1..], b);
    }
  }

  /** A trace without a `Ran` step holds no command. */
  lemma {:induction false} NoCommands(trace: seq<Effect>)
    requires forall i :: 0 <= i < |trace| ==> !trace[i].Ran?
    ensures Commands(trace) == []
  {
    if trace != [] {
      NoCommands(trace[1..]);
    }
  }

  /** The names written into `dir`, as a set. */
  function WrittenIn(trace: seq<Effect>, dir: Path): (r: set<Name>)
    ensures forall n :: n in r <==> Wrote(dir, n) in trace
  {
    set e | e in trace && e.Wrote? && e.dir == dir :: e.name
  }
}
