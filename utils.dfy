/**
 * cgroups/subsystems/utils.go: finding where a subsystem's hierarchy is
 * mounted, and resolving (or creating) one cgroup's directory under it.
 */
module CgroupUtils {
  import opened Wrappers
  import opened Text
  import opened Fs

  /** The errors the cgroup subsystem code reports, one per message it formats. */
  datatype CgroupError =
    | CgroupPathError(errno: Errno)                        // "cgroup path error %v"
    | CreateCgroupError(errno: Errno)                      // "error create cgroup %v"
    | SetMemoryError(errno: Errno)                         // "set cgroup memory fail %v"
    | SetProcError(errno: Errno)                           // "set cgroup proc fail %v"
    | GetCgroupError(cgroupPath: string, cause: CgroupError) // "get cgroup %s error: %v"

  /** The space-separated fields of one line of /proc/self/mountinfo. */
  function Fields(line: string): seq<string>
  {
    Split(line, ' ')
  }

  /** The line's mount options: its last field, split on ','. */
  function Options(line: string): seq<string>
  {
    var fields := Fields(line);
    Split(fields[|fields| - 1], ',')
  }

  /** The line mounts a hierarchy that has `subsystem` as one whole option. */
  predicate Mounts(line: string, subsystem: string)
  {
    subsystem in Options(line)
  }

  /** The index of the first line that mounts `subsystem`, or |lines| if none does. */
  function FirstMatch(lines: seq<string>, subsystem: string): (k: nat)
    ensures k <= |lines|
    ensures forall j :: 0 <= j < k ==> !Mounts(lines[j], subsystem)
    ensures k < |lines| ==> Mounts(lines[k], subsystem)
    decreases |lines|
  {
    if lines == [] || Mounts(lines[0], subsystem) then 0
    else 1 + FirstMatch(lines[1..], subsystem)
  }

  /**
   * The line FindCgroupMountpoint picks, if any, has a fifth field; on any
   * other line Go's `fields[4]` would panic. `None` stands for a mount table
   * that cannot be opened.
   */
  predicate HasMountField(table: Option<seq<string>>, subsystem: string)
  {
    table.Some? ==>
      var k := FirstMatch(table.value, subsystem);
      k < |table.value| ==> |Fields(table.value[k])| > 4
  }

  /** Every line has the kernel's shape, at least five fields. */
  predicate KernelShaped(table: Option<seq<string>>)
  {
    table.Some? ==> forall i :: 0 <= i < |table.value| ==> |Fields(table.value[i])| > 4
  }

  /**
   * FindCgroupMountpoint: the mount point (fifth field) of the first line
   * whose options include `subsystem`; "" when the table cannot be read or
   * no line matches. Lines read before a scanner error behave the same:
   * a match among them is returned, and otherwise the result is "".
   */
  function FindCgroupMountpoint(table: Option<seq<string>>, subsystem: string): (root: string)
    requires HasMountField(table, subsystem)
    ensures table.None? ==> root == ""
    ensures table.Some? && (forall i :: 0 <= i < |table.value| ==> !Mounts(table.value[i], subsystem)) ==> root == ""
    ensures table.Some? ==>
              forall i :: 0 <= i < |table.value| && Mounts(table.value[i], subsystem) &&
                          (forall j :: 0 <= j < i ==> !Mounts(table.value[j], subsystem))
                ==> |Fields(table.value[i])| > 4 && root == Fields(table.value[i])[4]
  {
    match table
    case None => ""
    case Some(lines) =>
      var k := FirstMatch(lines, subsystem);
      if k < |lines| then Fields(lines[k])[4] else ""
  }

  lemma KernelShapedHasMountField(table: Option<seq<string>>, subsystem: string)
    requires KernelShaped(table)
    ensures HasMountField(table, subsystem)
  {
  }

  lemma {:induction false} FirstMatchIgnoresLater(lines: seq<string>, more: seq<string>, subsystem: string)
    requires FirstMatch(lines, subsystem) < |lines|
    ensures FirstMatch(lines + more, subsystem) == FirstMatch(lines, subsystem)
    decreases |lines|
  {
    if !Mounts(lines[0], subsystem) {
      FirstMatchIgnoresLater(lines[1..], more, subsystem);
      assert (lines + more)[1..] == lines[1..] + more;
    }
  }

  /** Once a line matches, whatever lines follow it cannot change the answer. */
  lemma LaterLinesIgnored(lines: seq<string>, more: seq<string>, subsystem: string)
    requires exists i :: 0 <= i < |lines| && Mounts(lines[i], subsystem)
    requires HasMountField(Some(lines), subsystem)
    ensures HasMountField(Some(lines + more), subsystem)
    ensures FindCgroupMountpoint(Some(lines + more), subsystem) == FindCgroupMountpoint(Some(lines), subsystem)
  {
    FirstMatchIgnoresLater(lines, more, subsystem);
    var k := FirstMatch(lines, subsystem);
    assert (lines + more)[k] == lines[k];
  }

  /**
   * Matching compares whole options: a line built from separator-free fields
   * whose last field lists `opts` mounts exactly the subsystems in `opts`.
   */
  lemma MatchIsWholeOption(fields: seq<string>, opts: seq<string>)
    requires |fields| >= 1 && forall i :: 0 <= i < |fields| ==> ' ' !in fields[i]
    requires |opts| >= 1 && forall i :: 0 <= i < |opts| ==> ',' !in opts[i]
    requires fields[|fields| - 1] == Join(opts, ',')
    ensures forall subsystem :: Mounts(Join(fields, ' '), subsystem) <==> subsystem in opts
  {
    var line := Join(fields, ' ');
    SplitJoin(fields, ' ');
    SplitJoin(opts, ',');
    var last := fields[|fields| - 1];
    assert Split(last, ',') == opts;
    OptionsOfFields(line, fields);
  }

  /** A line whose fields are known has the options of its last field. */
  lemma OptionsOfFields(line: string, fields: seq<string>)
    requires Fields(line) == fields
    ensures Options(line) == Split(fields[|fields| - 1], ',')
  {
  }

  /**
   * Every mount table line, whatever its text, is its space-free fields
   * joined by spaces, with its options joined by ',' as the last field; so
   * MatchIsWholeOption applies to every line, not only to built ones.
   */
  lemma LineIsItsFields(line: string)
    ensures var fields := Fields(line);
            && |fields| >= 1 && (forall i :: 0 <= i < |fields| ==> ' ' !in fields[i])
            && Join(fields, ' ') == line
            && |Options(line)| >= 1 && (forall i :: 0 <= i < |Options(line)| ==> ',' !in Options(line)[i])
            && fields[|fields| - 1] == Join(Options(line), ',')
  {
    var fields := Fields(line);
    JoinSplit(line, ' ');
    JoinSplit(fields[|fields| - 1], ',');
  }

  /** "cpu" is not found in a hierarchy mounted with the option "cpuset". */
  lemma CpuDoesNotMatchCpuset()
    ensures var line := Join(["34", "25", "0:29", "/", "/sys/fs/cgroup/cpuset", "rw,cpuset"], ' ');
            Mounts(line, "cpuset") && !Mounts(line, "cpu")
  {
    var fields := ["34", "25", "0:29", "/", "/sys/fs/cgroup/cpuset", "rw,cpuset"];
    assert Join(["rw", "cpuset"], ',') == "rw,cpuset";
    MatchIsWholeOption(fields, ["rw", "cpuset"]);
  }

  /** The directory of `cgroupPath` in the hierarchy that mounts `subsystem`. */
  function CgroupDir(table: Option<seq<string>>, subsystem: string, cgroupPath: string): string
    requires HasMountField(table, subsystem)
  {
    PathJoin(FindCgroupMountpoint(table, subsystem), cgroupPath)
  }

  /**
   * What GetCgroupPath returns and what the filesystem is afterwards: an
   * existing entry is returned as it is; a missing one is created with
   * os.Mkdir only when `autoCreate` is set; any other stat error, or a
   * missing entry without `autoCreate`, is an error.
   */
  function ResolveCgroupPath(fs: Tree, table: Option<seq<string>>, subsystem: string,
                             cgroupPath: string, autoCreate: bool): (Result<string, CgroupError>, Tree)
    requires HasMountField(table, subsystem)
  {
    var p := CgroupDir(table, subsystem, cgroupPath);
    match Stat(fs, p)
    case Found(_) => (Success(p), fs)
    case Missing(e) =>
      if autoCreate && e == ENOENT then
        var (err, created) := Mkdir(fs, p);
        if err.Some? then (Failure(CreateCgroupError(err.value)), fs) else (Success(p), created)
      else (Failure(CgroupPathError(e)), fs)
  }

  /** In a well-formed tree no present path sits below a regular file. */
  lemma {:induction false} PresentNotBlocked(fs: Tree, q: string)
    requires TreeShaped(fs) && q in fs
    ensures !BlockedByFile(fs, q)
    decreases |q|
  {
    if Parent(q) != [] {
      PresentNotBlocked(fs, Parent(q));
    }
  }

  /** An existing cgroup directory is returned as is, and nothing is created, whatever `autoCreate` says. */
  lemma ResolveExisting(fs: Tree, table: Option<seq<string>>, subsystem: string, cgroupPath: string, autoCreate: bool)
    requires HasMountField(table, subsystem)
    requires CgroupDir(table, subsystem, cgroupPath) in fs
    ensures ResolveCgroupPath(fs, table, subsystem, cgroupPath, autoCreate)
         == (Success(CgroupDir(table, subsystem, cgroupPath)), fs)
  {
  }

  /**
   * With `autoCreate`, a missing directory is created (that one directory and
   * nothing else) exactly when its parent directory exists. Otherwise the
   * tree is left alone, and the error depends on why the entry is missing:
   * below a regular file the stat fails with ENOTDIR, which is not "does
   * not exist", so Mkdir is never tried and the stat error is reported;
   * anything else is a Mkdir that fails because the parent is missing.
   */
  lemma ResolveCreates(fs: Tree, table: Option<seq<string>>, subsystem: string, cgroupPath: string)
    requires HasMountField(table, subsystem) && TreeShaped(fs)
    requires CgroupDir(table, subsystem, cgroupPath) !in fs
    ensures var p := CgroupDir(table, subsystem, cgroupPath);
            var (r, after) := ResolveCgroupPath(fs, table, subsystem, cgroupPath, true);
            && (r.Success? <==> p != [] && ParentError(fs, p).None?)
            && (r.Success? ==> r.value == p && after == fs[p := Dir])
            && (r.Failure? ==> after == fs)
            && (r.Failure? ==> r.error == (if BlockedByFile(fs, p) then CgroupPathError(ENOTDIR)
                                           else CreateCgroupError(ENOENT)))
  {
    var p := CgroupDir(table, subsystem, cgroupPath);
    if p != [] && ParentError(fs, p).None? && Parent(p) != [] {
      PresentNotBlocked(fs, Parent(p));
    }
    if !BlockedByFile(fs, p) && Mkdir(fs, p).0.Some? {
      MkdirFailsUnblocked(fs, p);
    }
  }

  /** Below a regular file creation is never tried: the stat's ENOTDIR is the error. */
  lemma ResolveBelowFile()
    ensures var fs := map["/" := Dir, "/a" := File("")];
            ResolveCgroupPath(fs, None, "memory", "/a/b", true) == (Failure(CgroupPathError(ENOTDIR)), fs)
  {
    var fs := map["/" := Dir, "/a" := File("")];
    assert Base("/a/b") == "b";
    assert Parent("/a/b") == "/a";
    assert BlockedByFile(fs, "/a/b");
  }

  /** Without `autoCreate` nothing is ever created: success exactly when the entry exists. */
  lemma ResolveWithoutCreate(fs: Tree, table: Option<seq<string>>, subsystem: string, cgroupPath: string)
    requires HasMountField(table, subsystem)
    ensures var (r, after) := ResolveCgroupPath(fs, table, subsystem, cgroupPath, false);
            && after == fs
            && (r.Success? <==> CgroupDir(table, subsystem, cgroupPath) in fs)
            && (r.Success? ==> r.value == CgroupDir(table, subsystem, cgroupPath))
  {
  }

  /**
   * Resolving twice with `autoCreate` is idempotent: after a first success the
   * second call returns the same path, creates nothing and does not fail.
   */
  lemma ResolveIdempotent(fs: Tree, table: Option<seq<string>>, subsystem: string, cgroupPath: string)
    requires HasMountField(table, subsystem)
    requires ResolveCgroupPath(fs, table, subsystem, cgroupPath, true).0.Success?
    ensures var (r, after) := ResolveCgroupPath(fs, table, subsystem, cgroupPath, true);
            ResolveCgroupPath(after, table, subsystem, cgroupPath, true) == (r, after)
  {
  }

  /** With no hierarchy mounted the root is "" and the cgroup path is used as it stands. */
  lemma ResolveUnmounted(fs: Tree, table: Option<seq<string>>, subsystem: string, cgroupPath: string, autoCreate: bool)
    requires HasMountField(table, subsystem)
    requires FindCgroupMountpoint(table, subsystem) == ""
    ensures var r := ResolveCgroupPath(fs, table, subsystem, cgroupPath, autoCreate).0;
            r.Success? ==> r.value == cgroupPath
  {
  }

  lemma ResolveKeepsTree(fs: Tree, table: Option<seq<string>>, subsystem: string, cgroupPath: string, autoCreate: bool)
    requires HasMountField(table, subsystem) && TreeShaped(fs)
    ensures TreeShaped(ResolveCgroupPath(fs, table, subsystem, cgroupPath, autoCreate).1)
  {
    MkdirKeepsTree(fs, CgroupDir(table, subsystem, cgroupPath));
  }

  /** The machine the cgroup code runs on: its filesystem and its mount table. */
  class Host {
    var fs: Tree
    const mountinfo: Option<seq<string>>

    ghost predicate Valid()
      reads this
    {
      TreeShaped(fs) && KernelShaped(mountinfo)
    }

    constructor (fs0: Tree, table: Option<seq<string>>)
      requires TreeShaped(fs0) && KernelShaped(table)
      ensures Valid() && fs == fs0 && mountinfo == table
    {
      fs := fs0;
      mountinfo := table;
    }

    /** GetCgroupPath: stat the cgroup's directory, create it if allowed, return its path. */
    method GetCgroupPath(subsystem: string, cgroupPath: string, autoCreate: bool)
      returns (r: Result<string, CgroupError>)
      requires Valid()
      modifies this
      ensures Valid()
      ensures (r, fs) == ResolveCgroupPath(old(fs), mountinfo, subsystem, cgroupPath, autoCreate)
    {
      var root := FindCgroupMountpoint(mountinfo, subsystem);
      var p := PathJoin(root, cgroupPath);
      var st := Stat(fs, p);
      if st.Found? || (autoCreate && st.errno == ENOENT) {
        if st.Missing? {
          var (err, created) := Mkdir(fs, p);
          if err.Some? {
            return Failure(CreateCgroupError(err.value));
          }
          MkdirKeepsTree(fs, p);
          fs := created;
        }
        return Success(p);
      } else {
        return Failure(CgroupPathError(st.errno));
      }
    }
  }
}
