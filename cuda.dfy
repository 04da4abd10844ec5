/**
 * The release table and the text-valued rules of src/install_cuda.rs: the supported CUDA
 * releases, the descriptor of each, the driver-health heuristic, the PATH and LD_LIBRARY_PATH
 * prepend rules and the shell-profile fragment.
 */
module Cuda {
  import opened Wrappers
  import opened Text
  import Runner
  import Fetch

  datatype CudaVersion = V12_5 | V12_6 | V12_7 | V12_8

  /** The release as `Display` prints it. */
  function VersionText(v: CudaVersion): (s: string)
    ensures |s| == 4 && s[..3] == "12." && IsDigit(s[3])
    ensures ':' !in s && '\n' !in s && '/' !in s
  {
    match v
    case V12_5 => "12.5"
    case V12_6 => "12.6"
    case V12_7 => "12.7"
    case V12_8 => "12.8"
  }

  /** Different releases print differently. */
  lemma VersionTextInjective(v: CudaVersion, w: CudaVersion)
    requires VersionText(v) == VersionText(w)
    ensures v == w
  {
    assert VersionText(v)[3] == VersionText(w)[3];
  }

  /** A toolkit release descriptor. */
  datatype CudaConfig = CudaConfig(
    version: CudaVersion,
    toolkitUrl: string,
    toolkitChecksum: string,
    binFolder: string,
    libFolder: string,
    driverVersion: string)

  const DownloadRoot := "https://developer.download.nvidia.com/compute/cuda/"

  /** The driver bundled with each release's runfile. */
  function DriverVersion(v: CudaVersion): (d: string)
    ensures IsToken(d) && '/' !in d
  {
    match v
    case V12_5 => "555.42.02"
    case V12_6 => "535.161.07"
    case V12_7 => "545.23.08"
    case V12_8 => "550.54.14"
  }

  /** The expected md5 digest of each release's runfile. */
  function ToolkitChecksum(v: CudaVersion): (sum: string)
    ensures |sum| == 32
  {
    match v
    case V12_5 => "0bf587ce20c8e74b90701be56ae2c907"
    case V12_6 => "a4d6d4f1e9b3e9c1a7c9b9c9e9b9e9c9"
    case V12_7 => "b4d6d4f1e9b3e9c1a7c9b9c9e9b9e9c9"
    case V12_8 => "c4d6d4f1e9b3e9c1a7c9b9c9e9b9e9c9"
  }

  /** The runfile name of a release: `cuda_<release>.0_<driver>_linux.run`. */
  function InstallerName(v: CudaVersion): (name: string)
    ensures '/' !in name
    ensures EndsWith(name, "_" + DriverVersion(v) + "_linux.run")
  {
    var tail := "_" + DriverVersion(v) + "_linux.run";
    var name := "cuda_" + VersionText(v) + ".0" + tail;
    assert name[|name| - |tail|..] == tail;
    name
  }

  /** The directory a release's runfile is published in. */
  function InstallerDirectory(v: CudaVersion): (dir: string)
    ensures StartsWith(dir, DownloadRoot)
  {
    var dir := DownloadRoot + VersionText(v) + ".0/local_installers";
    assert dir == DownloadRoot + (VersionText(v) + ".0/local_installers");
    dir
  }

  /** The toolkit's install root, `/usr/local/cuda-<release>`. */
  function ReleaseRoot(v: CudaVersion): (root: string)
    ensures root == "/usr/local/cuda-" + VersionText(v)
    ensures StartsWith(root, "/usr/local/cuda-") && |root| == 20
    ensures ':' !in root && '\n' !in root
  {
    var root := "/usr/local/cuda-" + VersionText(v);
    assert root[..16] == "/usr/local/cuda-";
    root
  }

  /** A prefix survives appending. */
  lemma PrefixKept(a: string, b: string, prefix: string)
    requires StartsWith(a, prefix)
    ensures StartsWith(a + b, prefix)
  {
    assert (a + b)[..|prefix|] == a[..|prefix|];
  }

  /** A folder under `root` keeps the root as its prefix and, like its parts, has no ':' or line
      break. */
  lemma FolderUnder(root: string, tail: string)
    requires ':' !in root && '\n' !in root && ':' !in tail && '\n' !in tail
    ensures StartsWith(root + tail, root)
    ensures ':' !in root + tail && '\n' !in root + tail
  {
    assert (root + tail)[..|root|] == root;
  }

  /**
   * `CudaConfig::new`. The table spells each URL and folder out; here they are assembled from the
   * release's Display text and its bundled driver, which yields the same strings.
   */
  function NewConfig(v: CudaVersion): (c: CudaConfig)
    ensures c.version == v && c.driverVersion == DriverVersion(v)
    ensures StartsWith(c.toolkitUrl, DownloadRoot)
    ensures c.binFolder == ReleaseRoot(v) + "/bin" && c.libFolder == ReleaseRoot(v) + "/lib64"
    ensures StartsWith(c.binFolder, ReleaseRoot(v)) && StartsWith(c.libFolder, ReleaseRoot(v))
    ensures ':' !in c.binFolder && ':' !in c.libFolder
    ensures '\n' !in c.binFolder && '\n' !in c.libFolder
    ensures IsToken(c.driverVersion) && |c.toolkitChecksum| == 32
  {
    var dir := InstallerDirectory(v);
    var root := ReleaseRoot(v);
    PrefixKept(dir, "/" + InstallerName(v), DownloadRoot);
    FolderUnder(root, "/bin");
    FolderUnder(root, "/lib64");
    CudaConfig(v, dir + ("/" + InstallerName(v)), ToolkitChecksum(v), root + "/bin", root + "/lib64", DriverVersion(v))
  }

  /** The release can be read back from its folders: distinct releases install to distinct places. */
  lemma FoldersIdentifyRelease(v: CudaVersion, w: CudaVersion)
    requires NewConfig(v).binFolder == NewConfig(w).binFolder || NewConfig(v).libFolder == NewConfig(w).libFolder
    ensures v == w
  {
    var cv, cw := NewConfig(v), NewConfig(w);
    assert ReleaseRoot(v)[16..] == VersionText(v) && ReleaseRoot(w)[16..] == VersionText(w);
    assert cv.binFolder[..20] == ReleaseRoot(v) && cw.binFolder[..20] == ReleaseRoot(w);
    assert cv.libFolder[..20] == ReleaseRoot(v) && cw.libFolder[..20] == ReleaseRoot(w);
    VersionTextInjective(v, w);
  }

  /** The toolkit runfile is saved under its own name, which ends with `_<driver>_linux.run`. */
  lemma InstallerFile(v: CudaVersion)
    ensures Fetch.FileName(NewConfig(v).toolkitUrl) == InstallerName(v)
    ensures EndsWith(NewConfig(v).toolkitUrl, "_" + NewConfig(v).driverVersion + "_linux.run")
  {
    var dir, name := InstallerDirectory(v), InstallerName(v);
    var url := NewConfig(v).toolkitUrl;
    assert url == dir + "/" + name;
    FileNameAfterSlash(dir, name);
    var tail := "_" + DriverVersion(v) + "_linux.run";
    assert url[|url| - |tail|..] == name[|name| - |tail|..];
  }

  lemma FileNameAfterSlash(dir: string, name: string)
    requires '/' !in name
    ensures Fetch.FileName(dir + "/" + name) == name
  {
    var url := dir + "/" + name;
    assert url == dir + ['/'] + name;
    var parts := SplitOn(url, '/');
    assert SplitOn(name, '/') == [name];
    SplitOnLast(dir, name, '/');
  }

  lemma {:induction false} IndexOfPrefix(a: string, rest: string, c: char)
    requires c in a
    ensures IndexOf(a + rest, c) == IndexOf(a, c)
    decreases |a|
  {
    if a[0] != c {
      assert (a + rest)[1..] == a[1..] + rest;
      assert c in a[1..];
      IndexOfPrefix(a[1..], rest, c);
    }
  }

  /** The last piece of a split is what follows the last separator. */
  lemma {:induction false} SplitOnLast(a: string, b: string, c: char)
    requires c !in b
    ensures Fetch.Last(SplitOn(a + [c] + b, c)) == b
    decreases |a|
  {
    var s := a + [c] + b;
    assert SplitOn(b, c) == [b];
    if c !in a {
      SplitOnCons(a, b, c);
      assert SplitOn(s, c) == [a] + [b];
    } else {
      assert s == a + ([c] + b);
      IndexOfPrefix(a, [c] + b, c);
      var i := IndexOf(a, c).value;
      var rest := a[i + 1..] + [c] + b;
      assert s[i + 1..] == rest;
      var tail := SplitOn(rest, c);
      assert SplitOn(s, c) == [s[..i]] + tail;
      SplitOnLast(a[i + 1..], b, c);
      assert Fetch.Last([s[..i]] + tail) == Fetch.Last(tail);
    }
  }


  // ---------------------------------------------------------------------------
  // Driver verification

  /** `verify_driver`'s heuristic on the `nvidia-smi -L` run: a success whose output names a
      device UUID. */
  predicate ListingShowsDevice(status: Runner.ExitStatus, stdout: string) {
    status.Success() && Contains(stdout, "UUID")
  }

  /** The listing of a GPU ("GPU 0: ... (UUID: GPU-...)") passes; a failed run never does. */
  lemma ListingShowsDeviceExamples(before: string, after: string, status: Runner.ExitStatus)
    ensures ListingShowsDevice(Runner.Exited(0), before + "UUID" + after)
    ensures !status.Success() ==> !ListingShowsDevice(status, before + "UUID" + after)
  {
    ContainsInfix(before, "UUID", after);
  }

  // ---------------------------------------------------------------------------
  // Post-install environment

  /** PATH after post-install: the bin folder, ':' and the previous PATH (empty when unset). */
  function PrependedPath(binFolder: string, previous: Option<string>): (path: string)
    ensures ':' !in binFolder ==> SplitOn(path, ':') == [binFolder] + SplitOn(previous.GetOr(""), ':')
  {
    var path := binFolder + ":" + previous.GetOr("");
    if ':' !in binFolder then
      assert path == binFolder + [':'] + previous.GetOr("");
      SplitOnCons(binFolder, previous.GetOr(""), ':');
      path
    else path
  }

  /** LD_LIBRARY_PATH after post-install: the lib folder first, the previous list after it if set. */
  function PrependedLibraryPath(libFolder: string, previous: Option<string>): (path: string)
    ensures ':' !in libFolder ==>
              SplitOn(path, ':') == [libFolder] + (if previous.Some? then SplitOn(previous.value, ':') else [])
  {
    match previous
    case Some(value) =>
      var path := libFolder + ":" + value;
      if ':' !in libFolder then
        assert path == libFolder + [':'] + value;
        SplitOnCons(libFolder, value, ':');
        path
      else path
    case None =>
      assert ':' !in libFolder ==> SplitOn(libFolder, ':') == [libFolder] by {
        if ':' !in libFolder { assert IndexOf(libFolder, ':').None?; }
      }
      libFolder
  }

  /** With PATH unset, the new PATH ends in an empty entry, which the shell reads as the current
      directory; LD_LIBRARY_PATH gets no such entry. */
  lemma UnsetPathGainsEmptyEntry(v: CudaVersion)
    ensures SplitOn(PrependedPath(NewConfig(v).binFolder, None), ':') == [NewConfig(v).binFolder, ""]
    ensures SplitOn(PrependedLibraryPath(NewConfig(v).libFolder, None), ':') == [NewConfig(v).libFolder]
  {
    assert SplitOn("", ':') == [""];
  }

  const ProfileFilename := "/etc/profile.d/spyral_cuda_install.sh"
  /** The header line, kept in three literals so that its properties are proved piece by piece. */
  const ProfileHeader := "# Configuring CUDA toolkit." + " File created by Spyral" + " CUDA installation manager."

  /** Shell expansions that append the previous value after a ':' only when it is set. */
  const PathGuard := "${PATH:+:${PATH}}"
  const LibraryPathGuard := "${LD_LIBRARY_PATH:+:${LD_LIBRARY_PATH}}"

  function PathExport(binFolder: string): string {
    "export PATH=" + binFolder + PathGuard
  }

  function LibraryPathExport(libFolder: string): string {
    "export LD_LIBRARY_PATH=" + libFolder + LibraryPathGuard
  }

  /** The profile fragment: a header line and one export line for each variable. */
  function ProfileText(c: CudaConfig): string {
    ProfileHeader + "\n" + PathExport(c.binFolder) + "\n" + LibraryPathExport(c.libFolder) + "\n"
  }

  lemma HeaderPlain()
    ensures '\n' !in ProfileHeader && ProfileHeader[|ProfileHeader| - 1] == '.'
  {
    LineOfPieces("# Configuring CUDA toolkit.", " File created by Spyral", " CUDA installation manager.");
  }

  lemma PathGuardPlain()
    ensures '\n' !in PathGuard && PathGuard[|PathGuard| - 1] == '}'
  {
  }

  lemma LibraryPathGuardPlain()
    ensures '\n' !in LibraryPathGuard && LibraryPathGuard[|LibraryPathGuard| - 1] == '}'
  {
  }

  lemma LineOfPieces(a: string, b: string, c: string)
    requires '\n' !in a && '\n' !in b && '\n' !in c && |c| >= 1
    ensures '\n' !in a + b + c && (a + b + c)[|a + b + c| - 1] == c[|c| - 1]
  {
  }

  lemma ExportLinesPlain(binFolder: string, libFolder: string)
    requires '\n' !in binFolder && '\n' !in libFolder
    ensures '\n' !in PathExport(binFolder) && '\n' !in LibraryPathExport(libFolder)
    ensures PathExport(binFolder)[|PathExport(binFolder)| - 1] == '}'
    ensures LibraryPathExport(libFolder)[|LibraryPathExport(libFolder)| - 1] == '}'
  {
    PathGuardPlain();
    LibraryPathGuardPlain();
    LineOfPieces("export PATH=", binFolder, PathGuard);
    LineOfPieces("export LD_LIBRARY_PATH=", libFolder, LibraryPathGuard);
  }

  /** Read back line by line, the profile holds exactly the header and the two exports, in order. */
  lemma ProfileLines(c: CudaConfig)
    requires '\n' !in c.binFolder && '\n' !in c.libFolder
    ensures Lines(ProfileText(c)) == [ProfileHeader, PathExport(c.binFolder), LibraryPathExport(c.libFolder)]
  {
    var l1, l2, l3 := ProfileHeader, PathExport(c.binFolder), LibraryPathExport(c.libFolder);
    HeaderPlain();
    ExportLinesPlain(c.binFolder, c.libFolder);
    assert ProfileText(c) == l1 + "\n" + (l2 + "\n" + (l3 + "\n" + ""));
    LinesCons(l3, "");
    LinesCons(l2, l3 + "\n" + "");
    LinesCons(l1, l2 + "\n" + (l3 + "\n" + ""));
  }

  // ---------------------------------------------------------------------------
  // Persistence daemon and uninstaller locations

  const PersistencedBinary := "/usr/bin/nvidia-persistenced"
  const PersistencedInstaller := "/usr/share/doc/NVIDIA_GLX-1.0/samples/nvidia-persistenced-init.tar.bz2"

  /** `Path::join` of a relative name onto a directory. */
  function JoinPath(dir: string, name: string): (path: string)
    ensures EndsWith(path, name)
    ensures dir != [] ==> StartsWith(path, dir)
  {
    var path := if dir == [] || dir[|dir| - 1] == '/' then dir + name else dir + "/" + name;
    assert path[|path| - |name|..] == name;
    path
  }

  /** The driver uninstaller extracted from the toolkit runfile. */
  function UninstallerPath(tempDir: string, c: CudaConfig): string {
    JoinPath(tempDir, "NVIDIA-Linux-x86_64-" + c.driverVersion + ".run")
  }
}
