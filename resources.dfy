/**
 * `ModResourceImpl`: a mod's jar opened as a file system and shared by
 * reference counting. A file system this resource opened itself is kept
 * behind a wrapper that refuses to be closed directly; one that already
 * existed elsewhere is reused as it is and never closed here.
 */
module ModResources {
  import opened Java

  /** A jar file system; only whether it is open matters here. */
  class JarFileSystem {
    var open: bool

    constructor ()
      ensures open
    {
      open := true;
    }
  }

  /** The `fileSystem` field: a file system and whether it sits in an `FSWrapper`. */
  datatype Held = Held(fs: JarFileSystem, wrapped: bool)

  /** How `FileSystems.newFileSystem` answers: a new file system, one that already exists, or an I/O failure. */
  datatype OpenOutcome = Opened | AlreadyExists(existing: JarFileSystem) | Failed(message: string)

  const CLOSE_DIRECTLY: string :=
    "This FileSystem must not be closed directly, please use the ModResource#close() method."

  /** `FSWrapper.close`: always refused. */
  function CloseWrapper(h: Held): (r: Except<()>)
    requires h.wrapped
    ensures r.Throw? && r.error == UnsupportedOperation(CLOSE_DIRECTLY)
  {
    Throw(UnsupportedOperation(CLOSE_DIRECTLY))
  }

  class ModResource {
    var fileSystem: Option<Held>
    var refCount: int

    constructor ()
      ensures fileSystem.None? && refCount == 0
    {
      fileSystem := None;
      refCount := 0;
    }

    /** The cached file system is there and open (a wrapper is open when its delegate is). */
    predicate CachedOpen()
      reads this, if fileSystem.Some? then {fileSystem.value.fs} else {}
    {
      fileSystem.Some? && fileSystem.value.fs.open
    }

    /**
     * `fileSystem()`: an open cached file system is shared and counted once
     * more; otherwise the jar is opened afresh behind a wrapper, or the one
     * that already exists is taken unwrapped, and the count restarts at one.
     */
    method FileSystem(outcome: OpenOutcome) returns (r: Except<Held>)
      modifies this
      ensures old(CachedOpen()) ==>
        r == Ok(old(fileSystem).value) && fileSystem == old(fileSystem) && refCount == old(refCount) + 1
      ensures !old(CachedOpen()) && outcome.Opened? ==>
        r.Ok? && fresh(r.value.fs) && r.value.fs.open && r.value.wrapped
        && fileSystem == Some(r.value) && refCount == 1
      ensures !old(CachedOpen()) && outcome.AlreadyExists? ==>
        r == Ok(Held(outcome.existing, false)) && fileSystem == Some(r.value) && refCount == 1
      ensures !old(CachedOpen()) && outcome.Failed? ==>
        r == Throw(IO(outcome.message)) && fileSystem == old(fileSystem) && refCount == old(refCount)
    {
      if fileSystem.Some? && fileSystem.value.fs.open {
        refCount := refCount + 1;
        return Ok(fileSystem.value);
      }
      if outcome.Failed? {
        return Throw(IO(outcome.message));
      } else if outcome.Opened? {
        var fs := new JarFileSystem();
        fileSystem := Some(Held(fs, true));
      } else {
        fileSystem := Some(Held(outcome.existing, false));
      }
      refCount := 1;
      r := Ok(fileSystem.value);
    }

    /**
     * `close()`: one fewer user; the last one out closes the wrapped file
     * system's delegate. An unwrapped, reused file system stays open.
     */
    method Close()
      modifies this, if fileSystem.Some? then {fileSystem.value.fs} else {}
      ensures refCount == old(refCount) - 1 && fileSystem == old(fileSystem)
      ensures fileSystem.Some? ==>
        fileSystem.value.fs.open
        == (old(fileSystem.value.fs.open) && !(refCount <= 0 && fileSystem.value.wrapped))
    {
      refCount := refCount - 1;
      if refCount <= 0 && fileSystem.Some? && fileSystem.value.fs.open && fileSystem.value.wrapped {
        fileSystem.value.fs.open := false;
      }
    }
  }

  /**
   * Two users of a freshly opened jar: the first `close` leaves it open and
   * the second closes it.
   */
  method SharedUntilLastClose(m: ModResource) returns (sameHandle: bool, openAfterFirst: bool, openAfterSecond: bool)
    requires !m.CachedOpen()
    modifies m
    ensures sameHandle && openAfterFirst && !openAfterSecond
  {
    var first := m.FileSystem(Opened);
    var second := m.FileSystem(Opened);
    sameHandle := second == first;
    var fs := first.value.fs;
    m.Close();
    openAfterFirst := fs.open;
    m.Close();
    openAfterSecond := fs.open;
  }

  /** A file system that already existed is never closed, however often the resource is closed. */
  method ReusedNeverClosed(m: ModResource, existing: JarFileSystem)
    requires !m.CachedOpen() && existing.open
    modifies m, existing
    ensures existing.open && m.refCount == -1
  {
    var r := m.FileSystem(AlreadyExists(existing));
    m.Close();
    m.Close();
  }
}

/** The string logic of `PathUtils`: the standard folders and the jar path of a class. */
module Paths {
  import opened Java
  import opened Strings

  /** A path as its name elements. */
  type Path = seq<string>

  /** `getModsFolder`, `getConfigFolder`, `getPluginsFolder`: the working directory resolved with the folder's name. */
  function Folder(cwd: Path, name: string): (r: Path)
    ensures |r| == |cwd| + 1 && r[..|cwd|] == cwd && r[|cwd|] == name
  {
    cwd + [name]
  }

  const MODS: string := "mods"
  const CONFIG: string := "config"
  const PLUGINS: string := "plugins"

  const JAR: string := ".jar"
  const NESTED_JAR: string := ".jar!/"
  const UNABLE: string := "Unable to determine JAR path for class: "

  /**
   * `getPathFromClass`, given the class name, its decoded code-source
   * location and whether the system is Windows: the location up to and
   * including the `.jar` of a nested-jar URL, or the location itself when it
   * names a jar; any failure is rethrown as one `UnsupportedOperationException`.
   * The result is the string handed to `Paths.get`.
   */
  function PathFromClass(className: string, location: string, isWindows: bool): (r: Except<string>)
  {
    var index := IndexOf(location, NESTED_JAR);
    if index == -1 && !EndsWith(location, JAR) then
      Throw(UnsupportedOperation(UNABLE + className))
    else
      var path := if index != -1 then location[..index + |JAR|] else location;
      Ok(if isWindows && StartsWith(path, "/") then path[1..] else path)
  }

  /** A nested-jar location is cut right after the `.jar` of its first `.jar!/`. */
  lemma NestedJarCut(className: string, location: string, isWindows: bool)
    requires Contains(location, NESTED_JAR)
    ensures var i := IndexOf(location, NESTED_JAR);
      OccursAt(location, NESTED_JAR, i)
      && (forall j :: 0 <= j < i ==> !OccursAt(location, NESTED_JAR, j))
      && var cut := location[..i + |JAR|];
      EndsWith(cut, JAR)
      && PathFromClass(className, location, isWindows)
         == Ok(if isWindows && StartsWith(cut, "/") then cut[1..] else cut)
  {
    var i := IndexOf(location, NESTED_JAR);
    assert location[i..i + |JAR|] == NESTED_JAR[..|JAR|];
  }

  /** A plain jar location is kept as it is, apart from the Windows slash. */
  lemma PlainJarKept(className: string, location: string)
    requires !Contains(location, NESTED_JAR) && EndsWith(location, JAR)
    ensures PathFromClass(className, location, false) == Ok(location)
  {
  }

  /** Anything else is not a jar, and the rejection surfaces as the generic failure naming the class. */
  lemma NonJarRejected(className: string, location: string, isWindows: bool)
    ensures PathFromClass(className, location, isWindows).Throw?
        <==> !Contains(location, NESTED_JAR) && !EndsWith(location, JAR)
    ensures PathFromClass(className, location, isWindows).Throw? ==>
      PathFromClass(className, location, isWindows).error == UnsupportedOperation(UNABLE + className)
  {
  }

  /** On Windows exactly one leading slash goes, and nothing else changes. */
  lemma WindowsDropsOneSlash(className: string, location: string)
    ensures var unix := PathFromClass(className, location, false);
      var windows := PathFromClass(className, location, true);
      (unix.Ok? <==> windows.Ok?)
      && (unix.Ok? ==> windows.value == (if StartsWith(unix.value, "/") then unix.value[1..] else unix.value))
      && (unix.Ok? && StartsWith(unix.value, "//") ==> StartsWith(windows.value, "/"))
  {
    var unix := PathFromClass(className, location, false);
    if unix.Ok? && StartsWith(unix.value, "//") {
      var p := unix.value;
      assert p[1] == "//"[1] == '/';
      assert p[1..][..1] == [p[1]];
    }
  }
}
