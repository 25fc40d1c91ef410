/**
 * cgroups/subsystems/memory.go: the memory subsystem, which writes the memory
 * limit and the attached pid into the cgroup's control files and removes the
 * cgroup's directory.
 */
module Memory {
  import opened Wrappers
  import opened Text
  import opened Fs
  import opened CgroupUtils
  import opened Subsystems

  /** The subsystem's name, which is also the mount option of its hierarchy. */
  const MemoryName := "memory"
  const LimitFile := "memory.limit_in_bytes"
  const TasksFile := "tasks"

  /**
   * What Set reports and leaves behind: resolve the cgroup (creating it if
   * missing), then, only for a non-empty limit, write the limit file.
   */
  function SetSpec(fs: Tree, table: Option<seq<string>>, cgroupPath: string, res: ResourceConfig)
    : (Option<CgroupError>, Tree)
    requires HasMountField(table, MemoryName)
  {
    var (r, resolved) := ResolveCgroupPath(fs, table, MemoryName, cgroupPath, true);
    match r
    case Failure(e) => (Some(e), resolved)
    case Success(p) =>
      if res.memoryLimit == "" then (None, resolved)
      else
        var (err, written) := WriteFile(resolved, PathJoin(p, LimitFile), res.memoryLimit);
        if err.Some? then (Some(SetMemoryError(err.value)), resolved) else (None, written)
  }

  /**
   * What Apply reports and leaves behind: resolve the cgroup without creating
   * it, then write the pid's decimal text into its tasks file.
   */
  function ApplySpec(fs: Tree, table: Option<seq<string>>, cgroupPath: string, pid: int)
    : (Option<CgroupError>, Tree)
    requires HasMountField(table, MemoryName)
  {
    var (r, resolved) := ResolveCgroupPath(fs, table, MemoryName, cgroupPath, false);
    match r
    case Failure(e) => (Some(GetCgroupError(cgroupPath, e)), resolved)
    case Success(p) =>
      var (err, written) := WriteFile(resolved, PathJoin(p, TasksFile), Itoa(pid));
      if err.Some? then (Some(SetProcError(err.value)), resolved) else (None, written)
  }

  /**
   * What Remove reports and leaves behind: resolve the cgroup without
   * creating it, then delete its whole directory tree.
   */
  function RemoveSpec(fs: Tree, table: Option<seq<string>>, cgroupPath: string)
    : (Option<CgroupError>, Tree)
    requires HasMountField(table, MemoryName)
  {
    var (r, resolved) := ResolveCgroupPath(fs, table, MemoryName, cgroupPath, false);
    match r
    case Failure(e) => (Some(e), resolved)
    case Success(p) => (None, RemoveAll(resolved, p))
  }

  /**
   * A non-empty limit that Set reports as written is exactly the content of
   * `<cgroup>/memory.limit_in_bytes`, whatever was there before; apart from
   * that file and the cgroup's own directory nothing changes.
   */
  lemma SetWritesLimit(fs: Tree, table: Option<seq<string>>, cgroupPath: string, res: ResourceConfig)
    requires HasMountField(table, MemoryName)
    requires res.memoryLimit != ""
    ensures var (err, after) := SetSpec(fs, table, cgroupPath, res);
            var p := CgroupDir(table, MemoryName, cgroupPath);
            var limit := PathJoin(p, LimitFile);
            err.None? ==>
              && p in after
              && (p in fs ==> after[p] == fs[p])
              && (p !in fs ==> after[p] == Dir)
              && limit in after && after[limit] == File(res.memoryLimit)
              && forall q :: q != p && q != limit ==>
                   (q in after <==> q in fs) && (q in after ==> after[q] == fs[q])
  {
  }

  /**
   * When Set succeeds: the cgroup resolves (it exists, or its parent is a
   * directory so that it can be made), and for a non-empty limit the cgroup
   * is a directory and the limit file is not one, so the write goes through.
   */
  lemma SetSucceeds(fs: Tree, table: Option<seq<string>>, cgroupPath: string, res: ResourceConfig)
    requires HasMountField(table, MemoryName) && TreeShaped(fs)
    requires var p := CgroupDir(table, MemoryName, cgroupPath); p != [] && p[|p| - 1] != '/'
    ensures var p := CgroupDir(table, MemoryName, cgroupPath);
            var limit := PathJoin(p, LimitFile);
            var (r, resolved) := ResolveCgroupPath(fs, table, MemoryName, cgroupPath, true);
            && (r.Success? <==> p in fs || ParentError(fs, p).None?)
            && (SetSpec(fs, table, cgroupPath, res).0.None? <==>
                  && r.Success? && p in resolved
                  && (res.memoryLimit != "" ==> resolved[p].Dir? && !(limit in resolved && resolved[limit].Dir?)))
  {
    var p := CgroupDir(table, MemoryName, cgroupPath);
    if p in fs {
      ResolveExisting(fs, table, MemoryName, cgroupPath, true);
    } else {
      ResolveCreates(fs, table, MemoryName, cgroupPath);
    }
    ParentOfJoin(p, LimitFile);
  }

  /** Set with an empty limit writes no file; at most it creates the cgroup's directory. */
  lemma SetEmptyLimitWritesNothing(fs: Tree, table: Option<seq<string>>, cgroupPath: string, res: ResourceConfig)
    requires HasMountField(table, MemoryName)
    requires res.memoryLimit == ""
    ensures var (err, after) := SetSpec(fs, table, cgroupPath, res);
            var p := CgroupDir(table, MemoryName, cgroupPath);
            && err == (match ResolveCgroupPath(fs, table, MemoryName, cgroupPath, true).0
                       case Failure(e) => Some(e)
                       case Success(_) => None)
            && (after == fs || (p !in fs && after == fs[p := Dir]))
  {
  }

  /** When the cgroup cannot be resolved, Set returns that very error and changes nothing. */
  lemma SetResolutionFailure(fs: Tree, table: Option<seq<string>>, cgroupPath: string, res: ResourceConfig)
    requires HasMountField(table, MemoryName)
    requires ResolveCgroupPath(fs, table, MemoryName, cgroupPath, true).0.Failure?
    ensures SetSpec(fs, table, cgroupPath, res)
         == (Some(ResolveCgroupPath(fs, table, MemoryName, cgroupPath, true).0.error), fs)
  {
  }

  /** Apply never creates a cgroup, nor any other directory: the directories are the same before and after. */
  lemma ApplyNeverCreates(fs: Tree, table: Option<seq<string>>, cgroupPath: string, pid: int)
    requires HasMountField(table, MemoryName)
    ensures var after := ApplySpec(fs, table, cgroupPath, pid).1;
            forall q :: (q in after && after[q].Dir?) <==> (q in fs && fs[q].Dir?)
  {
  }

  /** Apply on a missing cgroup is an error and writes nothing. */
  lemma ApplyMissingCgroup(fs: Tree, table: Option<seq<string>>, cgroupPath: string, pid: int)
    requires HasMountField(table, MemoryName)
    requires CgroupDir(table, MemoryName, cgroupPath) !in fs
    ensures var (err, after) := ApplySpec(fs, table, cgroupPath, pid);
            err.Some? && err.value.GetCgroupError? && err.value.cgroupPath == cgroupPath && after == fs
  {
  }

  /**
   * When Apply succeeds: exactly when the cgroup exists as a directory and
   * its tasks file is not a directory.
   */
  lemma ApplySucceeds(fs: Tree, table: Option<seq<string>>, cgroupPath: string, pid: int)
    requires HasMountField(table, MemoryName)
    requires var p := CgroupDir(table, MemoryName, cgroupPath); p != [] && p[|p| - 1] != '/'
    ensures var p := CgroupDir(table, MemoryName, cgroupPath);
            var tasks := PathJoin(p, TasksFile);
            ApplySpec(fs, table, cgroupPath, pid).0.None? <==> p in fs && fs[p].Dir? && !(tasks in fs && fs[tasks].Dir?)
  {
    var p := CgroupDir(table, MemoryName, cgroupPath);
    ResolveWithoutCreate(fs, table, MemoryName, cgroupPath);
    ParentOfJoin(p, TasksFile);
  }

  /**
   * When Apply succeeds the tasks file holds exactly the pid's decimal text,
   * which reads back as the pid, and nothing else has changed.
   */
  lemma ApplyWritesPid(fs: Tree, table: Option<seq<string>>, cgroupPath: string, pid: int)
    requires HasMountField(table, MemoryName)
    requires ApplySpec(fs, table, cgroupPath, pid).0.None?
    ensures var after := ApplySpec(fs, table, cgroupPath, pid).1;
            var tasks := PathJoin(CgroupDir(table, MemoryName, cgroupPath), TasksFile);
            && CgroupDir(table, MemoryName, cgroupPath) in fs
            && tasks in after && after[tasks] == File(Itoa(pid))
            && ParseDecimal(after[tasks].data) == Some(pid)
            && forall q :: q != tasks ==> (q in after <==> q in fs) && (q in after ==> after[q] == fs[q])
  {
    ItoaRoundTrip(pid);
  }

  /**
   * Remove on an existing cgroup deletes its directory and everything below
   * it and nothing else; on a missing cgroup it is an error and changes nothing.
   */
  lemma RemoveDeletesSubtree(fs: Tree, table: Option<seq<string>>, cgroupPath: string)
    requires HasMountField(table, MemoryName)
    ensures var (err, after) := RemoveSpec(fs, table, cgroupPath);
            var p := CgroupDir(table, MemoryName, cgroupPath);
            && (err.None? <==> p in fs)
            && (err.None? ==> forall q :: (q in after <==> q in fs && !Within(q, p)) && (q in after ==> after[q] == fs[q]))
            && (err.Some? ==> err.value.CgroupPathError? && after == fs)
  {
  }

  /** The memory implementation of the Subsystem interface; it has no state of its own. */
  class MemorySubSystem {

    constructor ()
    {
    }

    /** Name: always "memory". */
    function Name(): (name: string)
      ensures name == "memory"
    {
      MemoryName
    }

    /** Set: resolve (creating if missing) and write a non-empty memory limit. */
    method Set(host: Host, cgroupPath: string, res: ResourceConfig) returns (err: Option<CgroupError>)
      requires host.Valid()
      modifies host
      ensures host.Valid()
      ensures (err, host.fs) == SetSpec(old(host.fs), host.mountinfo, cgroupPath, res)
    {
      KernelShapedHasMountField(host.mountinfo, MemoryName);
      var r := host.GetCgroupPath(Name(), cgroupPath, true);
      if r.Failure? {
        return Some(r.error);
      }
      if res.memoryLimit != "" {
        var (e, written) := WriteFile(host.fs, PathJoin(r.value, LimitFile), res.memoryLimit);
        if e.Some? {
          return Some(SetMemoryError(e.value));
        }
        WriteFileKeepsTree(host.fs, PathJoin(r.value, LimitFile), res.memoryLimit);
        host.fs := written;
      }
      return None;
    }

    /** Apply: attach `pid` to an existing cgroup through its tasks file. */
    method Apply(host: Host, cgroupPath: string, pid: int) returns (err: Option<CgroupError>)
      requires host.Valid()
      modifies host
      ensures host.Valid()
      ensures (err, host.fs) == ApplySpec(old(host.fs), host.mountinfo, cgroupPath, pid)
    {
      KernelShapedHasMountField(host.mountinfo, MemoryName);
      var r := host.GetCgroupPath(Name(), cgroupPath, false);
      if r.Failure? {
        return Some(GetCgroupError(cgroupPath, r.error));
      }
      var (e, written) := WriteFile(host.fs, PathJoin(r.value, TasksFile), Itoa(pid));
      if e.Some? {
        return Some(SetProcError(e.value));
      }
      WriteFileKeepsTree(host.fs, PathJoin(r.value, TasksFile), Itoa(pid));
      host.fs := written;
      return None;
    }

    /** Remove: delete an existing cgroup's whole directory tree. */
    method Remove(host: Host, cgroupPath: string) returns (err: Option<CgroupError>)
      requires host.Valid()
      modifies host
      ensures host.Valid()
      ensures (err, host.fs) == RemoveSpec(old(host.fs), host.mountinfo, cgroupPath)
    {
      KernelShapedHasMountField(host.mountinfo, MemoryName);
      var r := host.GetCgroupPath(Name(), cgroupPath, false);
      if r.Failure? {
        return Some(r.error);
      }
      RemoveAllKeepsTree(host.fs, r.value);
      host.fs := RemoveAll(host.fs, r.value);
      return None;
    }
  }
}
