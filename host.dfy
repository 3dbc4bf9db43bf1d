/**
 * The machine the compiler acts on, reduced to abstract state: a set of directories,
 * a map from file path to contents, the set of files with the executable bit, and a log
 * of the calls made in order. Whether a call succeeds for reasons the model does not track
 * (permissions, disk space) is given by a flag; the script's child process is given by
 * its exit code and output lines.
 */
module Host {
  type Path = string

  /** Mode 0775 (octal), as passed to chmod. */
  const ExecutableMode: int := 0x1FD

  /** One call into the filesystem or the process runner, as attempted. */
  datatype Effect =
    | MakeDirs(dir: Path)
    | PutContents(path: Path)
    | Chmod(path: Path, mode: int)
    | Exec(path: Path)
    | Remove(path: Path)

  datatype DiskState = DiskState(
    dirs: set<Path>,
    files: map<Path, string>,
    executable: set<Path>,
    log: seq<Effect>)

  /** What a child process reports: its exit status and its standard output, line by line. */
  datatype ChildResult = ChildResult(exitCode: int, output: seq<string>)

  /** is_executable($path): a regular file with the executable bit. */
  predicate IsExecutableIn(st: DiskState, path: Path)
  {
    path in st.files && path in st.executable
  }

  /** file_exists($path): true for files and for directories. */
  predicate ExistsIn(st: DiskState, path: Path)
  {
    path in st.files || path in st.dirs
  }

  /** sfFilesystem::mkdirs: nothing to do for an existing directory; cannot replace a file. */
  function MkdirsOn(st: DiskState, dir: Path, ok: bool): DiskState
  {
    var made := dir !in st.dirs && ok && dir !in st.files;
    st.(dirs := if made then st.dirs + {dir} else st.dirs, log := st.log + [MakeDirs(dir)])
  }

  /**
   * file_put_contents($path, $content): the number of bytes written, or 0 for a failure
   * (PHP's false). A directory cannot be overwritten; an existing file keeps its mode, and a
   * new file is created without the executable bit.
   */
  function PutContentsOn(st: DiskState, path: Path, content: string, ok: bool): (r: (DiskState, nat))
    ensures r.0.log == st.log + [PutContents(path)] && r.0.dirs == st.dirs
    ensures r.1 == (if ok && path !in st.dirs then |content| else 0)
    ensures ok && path !in st.dirs ==>
      (r.0.files == st.files[path := content] &&
       (path in r.0.executable <==> IsExecutableIn(st, path)) &&
       r.0.executable - {path} == st.executable - {path})
    ensures !(ok && path !in st.dirs) ==> r.0.files == st.files && r.0.executable == st.executable
  {
    var logged := st.(log := st.log + [PutContents(path)]);
    if ok && path !in st.dirs then
      var kept := if path in st.files then st.executable else st.executable - {path};
      (logged.(files := st.files[path := content], executable := kept), |content|)
    else (logged, 0)
  }

  /** sfFilesystem::chmod: sets the executable bit of an existing file when it succeeds. */
  function ChmodOn(st: DiskState, path: Path, mode: int, ok: bool): DiskState
  {
    var logged := st.(log := st.log + [Chmod(path, mode)]);
    if ok && path in st.files then logged.(executable := st.executable + {path}) else logged
  }

  /** sfFilesystem::remove on a file. */
  function RemoveOn(st: DiskState, path: Path, ok: bool): DiskState
  {
    var logged := st.(log := st.log + [Remove(path)]);
    if ok then logged.(files := st.files - {path}, executable := st.executable - {path}) else logged
  }

  /** exec($path): the child runs; only the call itself is recorded. */
  function ExecOn(st: DiskState, path: Path): DiskState
  {
    st.(log := st.log + [Exec(path)])
  }

  /** The machine, with the PHP built-ins the compiler calls directly. */
  class Machine {
    var dirs: set<Path>
    var files: map<Path, string>
    var executable: set<Path>
    var log: seq<Effect>

    function State(): DiskState
      reads this
    {
      DiskState(dirs, files, executable, log)
    }

    constructor (initial: DiskState)
      ensures State() == initial
    {
      dirs, files, executable, log := initial.dirs, initial.files, initial.executable, initial.log;
    }

    method PutContents(path: Path, content: string, ok: bool) returns (written: nat)
      modifies this
      ensures (State(), written) == PutContentsOn(old(State()), path, content, ok)
    {
      log := log + [Effect.PutContents(path)];
      if ok && path !in dirs {
        if path !in files {
          executable := executable - {path};
        }
        files := files[path := content];
        written := |content|;
      } else {
        written := 0;
      }
    }

    /** is_executable: a stored file that carries the executable bit. */
    predicate IsExecutable(path: Path): (b: bool)
      reads this
      ensures b <==> path in files && path in executable
    {
      IsExecutableIn(State(), path)
    }

    /** file_exists: a stored file or a directory. */
    predicate FileExists(path: Path): (b: bool)
      reads this
      ensures b <==> path in files || path in dirs
    {
      ExistsIn(State(), path)
    }

    /** exec($path, $output, $return_value) with the child's behaviour given. */
    method Exec(path: Path, child: ChildResult) returns (exitCode: int, output: seq<string>)
      modifies this
      ensures State() == ExecOn(old(State()), path)
      ensures exitCode == child.exitCode && output == child.output
    {
      log := log + [Effect.Exec(path)];
      exitCode, output := child.exitCode, child.output;
    }
  }

  /** sfFilesystem: a stateless helper whose calls act on the machine. */
  class Filesystem {
    const machine: Machine

    constructor (machine: Machine)
      ensures this.machine == machine
    {
      this.machine := machine;
    }

    method Mkdirs(dir: Path, ok: bool)
      modifies machine
      ensures machine.State() == MkdirsOn(old(machine.State()), dir, ok)
    {
      machine.log := machine.log + [MakeDirs(dir)];
      if dir !in machine.dirs && ok && dir !in machine.files {
        machine.dirs := machine.dirs + {dir};
      }
    }

    method Chmod(path: Path, mode: int, ok: bool)
      modifies machine
      ensures machine.State() == ChmodOn(old(machine.State()), path, mode, ok)
    {
      machine.log := machine.log + [Effect.Chmod(path, mode)];
      if ok && path in machine.files {
        machine.executable := machine.executable + {path};
      }
    }

    method Remove(path: Path, ok: bool)
      modifies machine
      ensures machine.State() == RemoveOn(old(machine.State()), path, ok)
    {
      machine.log := machine.log + [Effect.Remove(path)];
      if ok {
        machine.files := machine.files - {path};
        machine.executable := machine.executable - {path};
      }
    }
  }
}
