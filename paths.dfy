/** The dump directory of one run of one operation (`create_path` in python/utils/path.py). */
module Paths {
  import opened Text

  /** The fixed part between the base path and the operation name. */
  const DumpedFiles: string := "/dumped_files/"

  /**
   * `create_path(base_path, oper_name, device_list_file)` with the formatted time `timestr`
   * passed in: `<base>/dumped_files/<oper>/<list file>_<time>/`.
   */
  function CreatePath(basePath: string, operName: string, deviceListFile: string, timestr: string): string {
    basePath + DumpedFiles + operName + "/" + deviceListFile + "_" + timestr + "/"
  }

  /**
   * The layout of a dump directory: the base path and "/dumped_files/" first, then the
   * operation name and a '/', the list file's name, a '_', the time string, and a final '/'.
   */
  lemma CreatePathLayout(basePath: string, operName: string, deviceListFile: string, timestr: string)
    ensures var dir := CreatePath(basePath, operName, deviceListFile, timestr);
      && |dir| == |basePath| + |DumpedFiles| + |operName| + |deviceListFile| + |timestr| + 3
      && dir[..|basePath| + |DumpedFiles|] == basePath + DumpedFiles
      && dir[|basePath| + |DumpedFiles|..][..|operName| + 1] == operName + "/"
      && dir[|basePath| + |DumpedFiles| + |operName| + 1..][..|deviceListFile|] == deviceListFile
      && dir[|dir| - 1] == '/'
      && dir[..|dir| - 1][|dir| - 1 - |timestr|..] == timestr
      && dir[|dir| - 2 - |timestr|] == '_'
  {
  }

  /**
   * The directory handed to `os.makedirs` (`os.path.dirname` of the result) is the result
   * without its trailing '/', for any time string not ending in '/' (a formatted time never does).
   */
  lemma MakeDirsTarget(basePath: string, operName: string, deviceListFile: string, timestr: string)
    requires timestr == "" || timestr[|timestr| - 1] != '/'
    ensures var dir := CreatePath(basePath, operName, deviceListFile, timestr);
      DirName(dir) == dir[..|dir| - 1]
  {
    var dir := CreatePath(basePath, operName, deviceListFile, timestr);
    CreatePathLayout(basePath, operName, deviceListFile, timestr);
    var q := dir[..|dir| - 1];
    assert dir == q + "/";
    assert q[|q| - 1] == (if timestr == "" then '_' else timestr[|timestr| - 1]);
    DirNameOfDirectory(q);
  }

  /** Two runs with different time strings dump into different directories. */
  lemma DistinctTimes(basePath: string, operName: string, deviceListFile: string, t1: string, t2: string)
    requires t1 != t2
    ensures CreatePath(basePath, operName, deviceListFile, t1) != CreatePath(basePath, operName, deviceListFile, t2)
  {
    CreatePathLayout(basePath, operName, deviceListFile, t1);
    CreatePathLayout(basePath, operName, deviceListFile, t2);
  }

  /** The configuration dumps, fact dumps and diffs of a run never share a directory. */
  lemma OperationsSeparated(basePath: string, deviceListFile: string, t1: string, t2: string, t3: string)
    ensures var config, facts, delta :=
      CreatePath(basePath, "config", deviceListFile, t1),
      CreatePath(basePath, "facts", deviceListFile, t2),
      CreatePath(basePath, "delta", deviceListFile, t3);
      config != facts && facts != delta && config != delta
  {
    var k := |basePath| + |DumpedFiles|;
    CreatePathLayout(basePath, "config", deviceListFile, t1);
    CreatePathLayout(basePath, "facts", deviceListFile, t2);
    CreatePathLayout(basePath, "delta", deviceListFile, t3);
    assert CreatePath(basePath, "config", deviceListFile, t1)[k] == 'c';
    assert CreatePath(basePath, "facts", deviceListFile, t2)[k] == 'f';
    assert CreatePath(basePath, "delta", deviceListFile, t3)[k] == 'd';
  }
}
