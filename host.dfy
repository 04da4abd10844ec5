/**
 * The installer's steps that act on the machine, from src/utils.rs and src/install_cuda.rs.
 *
 * The machine is a `System` value held by a `Host` object, which also records every command line
 * the installer issues, in order. What each command prints and whether it succeeds is read off the
 * `System`: commands listed in `failing` exit with status 1, the rest behave as the fields say.
 */
module Host {
  import opened Wrappers
  import opened Text
  import opened Runner
  import App
  import Fetch
  import Cuda
  import Kernel

  /** What `nvidia-smi` does on the machine: absent, or present with the status and device listing
      that `nvidia-smi -L` produces. */
  datatype Smi = Missing | Present(status: ExitStatus, listing: string)

  /** The parts of the machine the installer observes or changes. */
  datatype System = System(
    /** What `uname -r` prints. */
    release: string,
    /** What `apt-cache search linux-image` prints. */
    packageIndex: string,
    /** Header packages the `dpkg -l | grep <name>` probe reports as installed. */
    headersListed: set<string>,
    /** Packages on hold. */
    held: set<string>,
    /** Files present, each with what `md5sum` prints for it. */
    files: map<string, string>,
    /** Files the network serves, by URL, with what `md5sum` prints once fetched. */
    mirror: map<string, string>,
    smi: Smi,
    /** What the driver runfile leaves behind once it succeeds. */
    smiAfterDriver: Smi,
    toolkitInstalled: bool,
    env: map<string, string>,
    /** The contents of the shell profile fragment, once written. */
    profile: Option<string>,
    /** Command lines that exit with a non-zero status. */
    failing: set<string>)

  /** How a call ends: it returned a value, the machine rebooted (`reboot` never returns), or an
      `unwrap` panicked. */
  datatype Ending = Returned(result: Result<(), IoError>) | Rebooted | Panicked

  /** `install_dependencies_debian`'s outcome: `Ok(())`, `Err(RebootRequired)`, or a panic. */
  datatype Gate = Ready | RebootRequired | GatePanicked

  // ---------------------------------------------------------------------------
  // Command lines

  const UpdateCommand := "apt-get update"
  const UnameCommand := "uname -r"
  const SearchCommand := "apt-cache search linux-image"
  const WhichCommand := "which nvidia-smi"
  const ListCommand := "nvidia-smi -L"
  const RebootCommand := "reboot now"
  const ExtractPersistenced := "tar -xf installer.tar.bz2"
  const RunPersistenced := "sh nvidia-persistenced-init/install.sh"

  function CurlCommand(url: string): string { "curl -fSsL -O " + url }
  function Md5Command(path: string): string { "md5sum " + path }
  function DpkgCommand(headers: string): string { "dpkg -l | grep " + headers }
  function DriverCommand(installer: string): string { "sh " + installer + " --silent --driver" }
  function ToolkitCommand(installer: string): string { "sh " + installer + " --silent --toolkit" }
  function ExtractCommand(installer: string, dir: string): string { "sh " + installer + " --extract=" + dir }
  function UninstallCommand(uninstaller: string): string { "sh " + uninstaller + " -s --uninstall" }

  /** The packages of the dependency install, in the order the command names them. */
  function InstallPackages(image: string, headers: string): seq<string> {
    ["make", "gcc", image, headers, "software-properties-common", "pciutils", "gcc", "make", "dkms"]
  }

  function InstallCommand(image: string, headers: string): string {
    JoinWith(["apt-get", "install", "-y"] + InstallPackages(image, headers), ' ')
  }

  /** The packages held while the driver is installed: the running kernel's image and headers and
      the cloud meta-packages. */
  function HoldNames(release: string): seq<string> {
    ["linux-image-" + release, "linux-headers-" + release, "linux-image-cloud-amd64", "linux-headers-cloud-amd64"]
  }

  function HoldSet(release: string): set<string> {
    set i | 0 <= i < 4 :: HoldNames(release)[i]
  }

  /** `apt-mark <verb>` on the held packages. */
  function AptMarkCommand(verb: string, release: string): string {
    JoinWith(["apt-mark", verb] + HoldNames(release), ' ')
  }

  function HoldCommand(release: string): string {
    AptMarkCommand("hold", release)
  }

  function UnholdCommand(release: string): string {
    AptMarkCommand("unhold", release)
  }

  lemma TokenConcat(a: string, b: string)
    requires IsToken(a) && NoWhitespace(b)
    ensures IsToken(a + b)
  {
    assert forall i :: 0 <= i < |a + b| ==> (a + b)[i] == if i < |a| then a[i] else b[i - |a|];
  }

  /** The package names are single tokens when the release is. */
  lemma HoldNamesTokens(release: string)
    requires IsToken(release)
    ensures forall i :: 0 <= i < |HoldNames(release)| ==> IsToken(HoldNames(release)[i])
  {
    VisibleToken("linux-image-");
    VisibleToken("linux-headers-");
    VisibleToken("linux-image-cloud-amd64");
    VisibleToken("linux-headers-cloud-amd64");
    TokenConcat("linux-image-", release);
    TokenConcat("linux-headers-", release);
  }

  /** `apt-mark <verb>` runs `apt-mark` with the verb and exactly the four package names. */
  lemma AptMarkLine(verb: string, release: string)
    requires IsToken(verb) && IsToken(release)
    ensures SplitWhitespace(AptMarkCommand(verb, release)) != []
    ensures CommandLine(AptMarkCommand(verb, release)) == ("apt-mark", [verb] + HoldNames(release))
  {
    var names := HoldNames(release);
    HoldNamesTokens(release);
    var args := [verb] + names;
    assert forall i :: 0 <= i < |args| ==> IsToken(args[i]) by {
      forall i | 0 <= i < |args| ensures IsToken(args[i]) {
        if i > 0 { assert args[i] == names[i - 1]; }
      }
    }
    assert ["apt-mark", verb] + names == ["apt-mark"] + args;
    CommandLineOfTokens("apt-mark", args);
  }

  /** The hold and unhold commands run `apt-mark` with `hold` or `unhold` and exactly the four
      package names, provided the release is a single token, as `uname -r` prints it. */
  lemma HoldCommandLine(release: string)
    requires IsToken(release)
    ensures SplitWhitespace(HoldCommand(release)) != []
    ensures CommandLine(HoldCommand(release)) == ("apt-mark", ["hold"] + HoldNames(release))
    ensures SplitWhitespace(UnholdCommand(release)) != []
    ensures CommandLine(UnholdCommand(release)) == ("apt-mark", ["unhold"] + HoldNames(release))
  {
    AptMarkLine("hold", release);
    AptMarkLine("unhold", release);
  }

  /** The dependency install runs `apt-get` with `install -y` and the nine packages, in order. */
  lemma InstallCommandLine(image: string, headers: string)
    requires IsToken(image) && IsToken(headers)
    ensures SplitWhitespace(InstallCommand(image, headers)) != []
    ensures CommandLine(InstallCommand(image, headers))
            == ("apt-get", ["install", "-y"] + InstallPackages(image, headers))
  {
    var args := ["install", "-y"] + InstallPackages(image, headers);
    VisibleToken("software-properties-common");
    VisibleToken("pciutils");
    VisibleToken("install");
    assert forall i :: 0 <= i < |args| ==> IsToken(args[i]);
    assert ["apt-get", "install", "-y"] + InstallPackages(image, headers) == ["apt-get"] + args;
    CommandLineOfTokens("apt-get", args);
  }

  // ---------------------------------------------------------------------------
  // What the machine answers

  /** A command that succeeds with `stdout` when `ok`, and exits with status 1 when it is listed as
      failing or `ok` does not hold. */
  function Reply(s: System, command: string, ok: bool, stdout: string): Attempt {
    if command in s.failing || !ok then Finished(Exited(1), "", "") else Finished(Exited(0), stdout, "")
  }

  /** `which nvidia-smi` finds the tool. */
  predicate Found(s: System) {
    s.smi.Present? && WhichCommand !in s.failing
  }

  /** `nvidia-smi -L`: the tool's own status and listing, or a failed spawn when it is absent. */
  function ListReply(s: System): Attempt {
    match s.smi
    case Present(status, listing) => Finished(status, listing, "")
    case Missing => IoFailure("nvidia-smi: not found")
  }

  /** What `verify_driver` concludes about the machine. */
  predicate Healthy(s: System) {
    Found(s) && Cuda.ListingShowsDevice(s.smi.status, s.smi.listing)
  }

  function VerifyLog(s: System): seq<string> {
    if Found(s) then [WhichCommand, ListCommand] else [WhichCommand]
  }

  /** `get_kernel_version`'s result. */
  function KernelVersion(s: System): Result<string, IoError> {
    if UnameCommand in s.failing then Failure(NonzeroExit) else Success(Trim(s.release))
  }

  function EnvVar(env: map<string, string>, key: string): Option<string> {
    if key in env then Some(env[key]) else None
  }

  /** `log` continues `earlier`. */
  predicate Extends(log: seq<string>, earlier: seq<string>) {
    |earlier| <= |log| && forall i :: 0 <= i < |earlier| ==> log[i] == earlier[i]
  }

  lemma ExtendsTrans(log: seq<string>, middle: seq<string>, earlier: seq<string>)
    requires Extends(log, middle) && Extends(middle, earlier)
    ensures Extends(log, earlier)
  {
  }

  lemma ExtendsPrefix(prefix: seq<string>, log: seq<string>, earlier: seq<string>)
    requires Extends(log, earlier)
    ensures Extends(prefix + log, prefix + earlier)
  {
    forall i | 0 <= i < |prefix + earlier|
      ensures (prefix + log)[i] == (prefix + earlier)[i]
    {
      if i >= |prefix| {
        assert (prefix + log)[i] == log[i - |prefix|];
      }
    }
  }

  lemma ExtendsAppend(earlier: seq<string>, added: seq<string>)
    ensures Extends(earlier + added, earlier)
  {
  }

  /** A log extended by commands that start with `first` continues the old log and `first`. */
  lemma ExtendsFirst(earlier: seq<string>, added: seq<string>, first: string)
    requires |added| >= 1 && added[0] == first
    ensures Extends(earlier + added, earlier + [first])
  {
    assert (earlier + added)[|earlier|] == added[0];
  }

  // ---------------------------------------------------------------------------
  // The reboot gate of install_dependencies_debian, as a function of the machine

  /** The kernel the step wants: the `major.minor.patch-micro` string it looks for in the running
      release, the headers package it probes for, and the install command line. */
  datatype Wanted = Wanted(pin: string, headers: string, install: string)

  function WantedOf(major: string, minor: string, patch: nat, micro: nat, suffix: string): Wanted {
    var version := Kernel.WantedVersion(major, minor, patch, micro, suffix);
    Wanted(Kernel.RunningPin(major, minor, patch, micro), Kernel.HeadersPackage(version),
           InstallCommand(Kernel.ImagePackage(version), Kernel.HeadersPackage(version)))
  }

  /** The newest kernel of the running release line that the index offers, or `None` when the
      release has no '.' (where the source's `unwrap` panics). */
  function Target(s: System, suffix: string): (r: Option<Wanted>)
    ensures r.Some? <==> '.' in Trim(s.release)
  {
    match Kernel.MajorMinor(Trim(s.release))
    case None => None
    case Some((major, minor)) =>
      var best := Kernel.Newest(Kernel.Candidates(Kernel.IndexNames(s.packageIndex), major, minor, suffix));
      Some(WantedOf(major, minor, best.0, best.1, suffix))
  }

  /** The running release contains the wanted `major.minor.patch-micro`. */
  predicate KernelMatches(s: System, w: Wanted) {
    Contains(Trim(s.release), w.pin)
  }

  /** The dpkg probe reports the wanted headers installed. */
  predicate HeadersReported(s: System, w: Wanted) {
    w.headers in s.headersListed && DpkgCommand(w.headers) !in s.failing
  }

  /** The install command and the outcome it leads to. */
  function InstallPlan(s: System, w: Wanted, kernelOk: bool): (r: (Gate, seq<string>))
    ensures r.1 == [w.install]
    ensures r.0 == Ready <==> kernelOk && w.install !in s.failing
    ensures r.0 == RebootRequired <==> !kernelOk && w.install !in s.failing
  {
    if w.install in s.failing then (GatePanicked, [w.install])
    else (if kernelOk then Ready else RebootRequired, [w.install])
  }

  /** The second `uname -r`, the headers probe, and the install when either the kernel or the
      headers are missing. */
  function CheckPlan(s: System, w: Wanted): (r: (Gate, seq<string>))
    ensures |r.1| >= 1 && r.1[0] == UnameCommand
  {
    if UnameCommand in s.failing then (GatePanicked, [UnameCommand])
    else if KernelMatches(s, w) && HeadersReported(s, w) then (Ready, [UnameCommand] + [DpkgCommand(w.headers)])
    else
      var rest := InstallPlan(s, w, KernelMatches(s, w));
      (rest.0, [UnameCommand] + ([DpkgCommand(w.headers)] + rest.1))
  }

  /** The index search, the choice of the newest kernel of the line, then the check. */
  function SearchPlan(s: System, major: string, minor: string, suffix: string): (r: (Gate, seq<string>))
    ensures |r.1| >= 1 && r.1[0] == SearchCommand
  {
    if SearchCommand in s.failing then (GatePanicked, [SearchCommand])
    else
      var best := Kernel.Newest(Kernel.Candidates(Kernel.IndexNames(s.packageIndex), major, minor, suffix));
      var rest := CheckPlan(s, WantedOf(major, minor, best.0, best.1, suffix));
      (rest.0, [SearchCommand] + rest.1)
  }

  /** After `apt-get update`: read and parse the release, then search. */
  function ProbePlan(s: System, suffix: string): (r: (Gate, seq<string>))
    ensures |r.1| >= 1 && r.1[0] == UnameCommand
    ensures r.0 != GatePanicked ==> UnameCommand !in s.failing && '.' in Trim(s.release)
  {
    if UnameCommand in s.failing then (GatePanicked, [UnameCommand])
    else
      match Kernel.MajorMinor(Trim(s.release))
      case None => (GatePanicked, [UnameCommand])
      case Some((major, minor)) =>
        var rest := SearchPlan(s, major, minor, suffix);
        (rest.0, [UnameCommand] + rest.1)
  }

  /** The outcome and the commands of `install_dependencies_debian` on machine `s`. */
  function DependencyPlan(s: System, suffix: string): (r: (Gate, seq<string>))
    ensures |r.1| >= 1 && r.1[0] == UpdateCommand
    ensures r.0 != GatePanicked ==> UpdateCommand !in s.failing && '.' in Trim(s.release)
  {
    if UpdateCommand in s.failing then (GatePanicked, [UpdateCommand])
    else
      var rest := ProbePlan(s, suffix);
      (rest.0, [UpdateCommand] + rest.1)
  }

  /** The reboot gate, for the wanted kernel `w`, on a machine where every command succeeds: with
      the wanted kernel running and its headers reported, the step ends after its two probes and
      installs nothing; otherwise it issues exactly one install command, never panics, and asks
      for a reboot exactly when the wanted kernel is not the running one. */
  lemma CheckGate(s: System, w: Wanted)
    requires s.failing == {}
    ensures KernelMatches(s, w) && HeadersReported(s, w) ==>
              CheckPlan(s, w).0 == Ready && |CheckPlan(s, w).1| == 2
    ensures !(KernelMatches(s, w) && HeadersReported(s, w)) ==>
              |CheckPlan(s, w).1| == 3 && CheckPlan(s, w).1[2] == w.install
              && (CheckPlan(s, w).0 == RebootRequired <==> !KernelMatches(s, w))
              && CheckPlan(s, w).0 != GatePanicked
  {
    if KernelMatches(s, w) && HeadersReported(s, w) {
      assert CheckPlan(s, w) == (Ready, [UnameCommand] + [DpkgCommand(w.headers)]);
    } else {
      CheckGateInstalls(s, w);
    }
  }

  /** The gate's install branch, with every command succeeding. */
  lemma CheckGateInstalls(s: System, w: Wanted)
    requires s.failing == {} && !(KernelMatches(s, w) && HeadersReported(s, w))
    ensures CheckPlan(s, w).1 == [UnameCommand, DpkgCommand(w.headers), w.install]
    ensures CheckPlan(s, w).0 == (if KernelMatches(s, w) then Ready else RebootRequired)
  {
    var rest := InstallPlan(s, w, KernelMatches(s, w));
    assert CheckPlan(s, w) == (rest.0, [UnameCommand] + ([DpkgCommand(w.headers)] + rest.1));
  }

  /** Whatever fails, the step asks for a reboot only when the running kernel is not the newest of
      its line: a reboot request always comes from the install branch with the kernel check false. */
  lemma RebootMeansStaleKernel(s: System, suffix: string)
    requires DependencyPlan(s, suffix).0 == RebootRequired
    ensures '.' in Trim(s.release) && !KernelMatches(s, Target(s, suffix).value)
  {
    assert ProbePlan(s, suffix).0 == RebootRequired;
    ProbeReboot(s, suffix);
    CheckReboot(s, Target(s, suffix).value);
  }

  /** A reboot request after `uname -r` is the gate's, for the target kernel. */
  lemma ProbeReboot(s: System, suffix: string)
    requires ProbePlan(s, suffix).0 == RebootRequired
    ensures Target(s, suffix).Some? && CheckPlan(s, Target(s, suffix).value).0 == RebootRequired
  {
    var mm := Kernel.MajorMinor(Trim(s.release)).value;
    var best := Kernel.Newest(Kernel.Candidates(Kernel.IndexNames(s.packageIndex), mm.0, mm.1, suffix));
    var w := WantedOf(mm.0, mm.1, best.0, best.1, suffix);
    assert Target(s, suffix) == Some(w);
    assert SearchPlan(s, mm.0, mm.1, suffix).0 == RebootRequired;
  }

  /** The gate asks for a reboot only when the running kernel is not the wanted one. */
  lemma CheckReboot(s: System, w: Wanted)
    requires CheckPlan(s, w).0 == RebootRequired
    ensures !KernelMatches(s, w)
  {
    assert InstallPlan(s, w, KernelMatches(s, w)).0 == RebootRequired;
  }

  lemma AppendAssoc(a: seq<string>, b: seq<string>, c: seq<string>)
    ensures (a + b) + c == a + (b + c)
  {
  }

  /** On a machine where every command succeeds and the running release names a line, the whole
      step is `apt-get update`, `uname -r`, the index search, and then the gate for the newest
      kernel of that line. */
  lemma DependencySteps(s: System, suffix: string, w: Wanted)
    requires s.failing == {} && Target(s, suffix) == Some(w)
    ensures DependencyPlan(s, suffix).0 == CheckPlan(s, w).0
    ensures DependencyPlan(s, suffix).1
            == [UpdateCommand] + ([UnameCommand] + ([SearchCommand] + CheckPlan(s, w).1))
  {
    var mm := Kernel.MajorMinor(Trim(s.release)).value;
    assert SearchPlan(s, mm.0, mm.1, suffix) == (CheckPlan(s, w).0, [SearchCommand] + CheckPlan(s, w).1);
  }

  /** The step panics only on a failing command or a release without a '.'. */
  lemma DependencyPanics(s: System, suffix: string)
    requires DependencyPlan(s, suffix).0 == GatePanicked
    ensures s.failing != {} || '.' !in Trim(s.release)
  {
    if s.failing == {} && '.' in Trim(s.release) {
      DependencySteps(s, suffix, Target(s, suffix).value);
      CheckGate(s, Target(s, suffix).value);
    }
  }

  /** A note on how the installed-kernel probe behaves, not a claim that the source is wrong: the
      probe is a substring test on the release, so a running kernel whose micro number merely
      starts with the wanted one's digits also passes it. */
  lemma KernelProbeIsSubstring(major: string, minor: string, patch: nat, micro: nat, digit: nat,
                               suffix: string)
    requires micro >= 1 && digit < 10
    ensures Contains(Kernel.RunningPin(major, minor, patch, 10 * micro + digit) + suffix,
                     Kernel.RunningPin(major, minor, patch, micro))
  {
    var n := 10 * micro + digit;
    assert n / 10 == micro && n % 10 == digit;
    assert NatToString(n) == NatToString(micro) + [DigitChar(digit)];
    var pin := Kernel.RunningPin(major, minor, patch, micro);
    assert Kernel.RunningPin(major, minor, patch, n) + suffix == pin + ([DigitChar(digit)] + suffix);
    ContainsInfix("", pin, [DigitChar(digit)] + suffix);
    assert "" + pin + ([DigitChar(digit)] + suffix) == pin + ([DigitChar(digit)] + suffix);
  }

  // ---------------------------------------------------------------------------
  // download_file, as a function of the machine

  function CurlOk(s: System, url: string): bool {
    url in s.mirror && CurlCommand(url) !in s.failing
  }

  /** The files after `download_file(url, _)`: the file is fetched only when it is not there yet. */
  function FilesAfterDownload(s: System, url: string): (files: map<string, string>)
    ensures s.files.Keys <= files.Keys <= s.files.Keys + {Fetch.FileName(url)}
    ensures forall path :: path in s.files ==> files[path] == s.files[path]
  {
    var name := Fetch.FileName(url);
    if name !in s.files && CurlOk(s, url) then s.files[name := s.mirror[url]] else s.files
  }

  function DownloadLog(s: System, url: string): (log: seq<string>)
    ensures 1 <= |log| <= 2
    ensures log[|log| - 1] == Md5Command(Fetch.FileName(url)) <==> Fetch.FileName(url) in FilesAfterDownload(s, url)
  {
    assert CurlCommand(url)[0] != Md5Command(Fetch.FileName(url))[0];
    var name := Fetch.FileName(url);
    if name in s.files then [Md5Command(name)]
    else if CurlOk(s, url) then [CurlCommand(url), Md5Command(name)]
    else [CurlCommand(url)]
  }

  lemma DownloadLogStart(s: System, url: string)
    ensures |DownloadLog(s, url)| >= 1
    ensures DownloadLog(s, url)[0] != UpdateCommand
  {
    var first := DownloadLog(s, url)[0];
    assert first[0] == 'c' || first[0] == 'm';
  }

  // ---------------------------------------------------------------------------
  // The remaining steps, as functions of the machine

  /** What a step that returns `io::Result<()>` leaves behind: its result, the machine after it, and
      the commands it issued, in order. */
  datatype Step = Step(result: Result<(), IoError>, after: System, commands: seq<string>)

  /** What a step that may reboot the machine or panic leaves behind. */
  datatype Finish = Finish(ending: Ending, after: System, commands: seq<string>)

  /** `download_file(url, md5)`'s result: a failed curl or md5sum, a checksum mismatch naming the
      file, or the file's name. */
  function DownloadResult(s: System, url: string, md5: string): (r: Result<string, IoError>)
    ensures r.Success? ==> r.value == Fetch.FileName(url) && r.value in FilesAfterDownload(s, url)
    ensures r.Success? <==> Fetch.FileName(url) in FilesAfterDownload(s, url) && Md5Command(Fetch.FileName(url)) !in s.failing
                            && Fetch.ReportedChecksum(FilesAfterDownload(s, url)[Fetch.FileName(url)]) == md5
  {
    var name := Fetch.FileName(url);
    var files := FilesAfterDownload(s, url);
    if name !in files || Md5Command(name) in s.failing then Failure(NonzeroExit)
    else if Fetch.ReportedChecksum(files[name]) != md5 then Failure(ChecksumMismatch(name))
    else Success(name)
  }

  /** A second download of a file that was fetched and checked succeeds the same way, from the file
      already on disk, with md5sum alone. */
  lemma DownloadAgain(s: System, t: System, url: string, md5: string)
    requires DownloadResult(s, url, md5).Success?
    requires t.files == FilesAfterDownload(s, url) && t.failing == s.failing
    ensures DownloadResult(t, url, md5) == DownloadResult(s, url, md5)
    ensures FilesAfterDownload(t, url) == t.files
    ensures DownloadLog(t, url) == [Md5Command(Fetch.FileName(url))]
  {
  }

  /** `lock_kernel_updates_debian` (`hold`) or `unlock_kernel_updates_debian` (`!hold`). */
  function MarkEffect(s: System, hold: bool): Step {
    var release := Trim(s.release);
    var command := if hold then HoldCommand(release) else UnholdCommand(release);
    if UnameCommand in s.failing then Step(Failure(NonzeroExit), s, [UnameCommand])
    else if command in s.failing then Step(Failure(NonzeroExit), s, [UnameCommand, command])
    else Step(Success(()), s.(held := if hold then s.held + HoldSet(release) else s.held - HoldSet(release)),
              [UnameCommand, command])
  }

  /** `configure_persistanced_service`: nothing unless both the daemon and its archive exist. */
  function PersistencedEffect(s: System): (r: Step)
    ensures r.after == s
    ensures r.commands == [] <==> Cuda.PersistencedBinary !in s.files || Cuda.PersistencedInstaller !in s.files
    ensures r.result.Failure? <==> r.commands != [] && r.commands[|r.commands| - 1] in s.failing
  {
    if Cuda.PersistencedBinary !in s.files || Cuda.PersistencedInstaller !in s.files then Step(Success(()), s, [])
    else if ExtractPersistenced in s.failing then Step(Failure(NonzeroExit), s, [ExtractPersistenced])
    else if RunPersistenced in s.failing then Step(Failure(NonzeroExit), s, [ExtractPersistenced, RunPersistenced])
    else Step(Success(()), s, [ExtractPersistenced, RunPersistenced])
  }

  /** The environment after `cuda_postinstallation_actions`. */
  function PostInstallEnv(env: map<string, string>, c: Cuda.CudaConfig): map<string, string> {
    env["PATH" := Cuda.PrependedPath(c.binFolder, EnvVar(env, "PATH"))]
       ["LD_LIBRARY_PATH" := Cuda.PrependedLibraryPath(c.libFolder, EnvVar(env, "LD_LIBRARY_PATH"))]
  }

  /** `cuda_postinstallation_actions`: the environment, the profile fragment, then the daemon. */
  function PostInstallEffect(s: System, c: Cuda.CudaConfig): (r: Step)
    ensures EnvVar(r.after.env, "PATH") == Some(Cuda.PrependedPath(c.binFolder, EnvVar(s.env, "PATH")))
    ensures EnvVar(r.after.env, "LD_LIBRARY_PATH")
            == Some(Cuda.PrependedLibraryPath(c.libFolder, EnvVar(s.env, "LD_LIBRARY_PATH")))
    ensures forall key :: key != "PATH" && key != "LD_LIBRARY_PATH" ==> EnvVar(r.after.env, key) == EnvVar(s.env, key)
    ensures r.after == s.(env := r.after.env, profile := Some(Cuda.ProfileText(c)))
  {
    var s1 := s.(env := PostInstallEnv(s.env, c), profile := Some(Cuda.ProfileText(c)));
    var daemon := PersistencedEffect(s1);
    Step(daemon.result, s1, daemon.commands)
  }

  /** The driver part of `install_driver`: download, `sh <runfile> --silent --driver`, verify, and
      hold the kernel when the driver verifies. */
  function DriverEffect(s: System, c: Cuda.CudaConfig): Step {
    var fetched := DownloadResult(s, c.toolkitUrl, c.toolkitChecksum);
    var s1 := s.(files := FilesAfterDownload(s, c.toolkitUrl));
    var fetchLog := DownloadLog(s, c.toolkitUrl);
    if fetched.Failure? then Step(Failure(fetched.error), s1, fetchLog)
    else
      var command := DriverCommand(fetched.value);
      if command in s.failing then Step(Failure(NonzeroExit), s1, fetchLog + [command])
      else
        var s2 := s1.(smi := s.smiAfterDriver);
        if !Healthy(s2) then Step(Success(()), s2, fetchLog + ([command] + VerifyLog(s2)))
        else
          var lock := MarkEffect(s2, true);
          Step(lock.result, lock.after, fetchLog + ([command] + (VerifyLog(s2) + lock.commands)))
  }

  /** `install_driver`: the dependencies, a reboot when they ask for one, otherwise the driver. */
  function InstallDriverEffect(s: System, provider: App.CloudProvider, version: Cuda.CudaVersion): (r: Finish)
    ensures |r.commands| >= 1 && r.commands[0] == UpdateCommand
  {
    var deps := DependencyPlan(s, App.KernelSuffix(provider));
    if deps.0 == GatePanicked then Finish(Panicked, s, deps.1)
    else if deps.0 == RebootRequired then
      Finish(if RebootCommand in s.failing then Panicked else Rebooted, s, deps.1 + [RebootCommand])
    else
      var driver := DriverEffect(s, Cuda.NewConfig(version));
      Finish(Returned(driver.result), driver.after, deps.1 + driver.commands)
  }

  /** `uninstall_driver` once the driver verifies: download, extract the driver's own runfile into
      `tempDir`, run its uninstaller, then release the kernel hold. */
  function RemovalEffect(s: System, c: Cuda.CudaConfig, tempDir: string): Step {
    var fetched := DownloadResult(s, c.toolkitUrl, c.toolkitChecksum);
    var s1 := s.(files := FilesAfterDownload(s, c.toolkitUrl));
    var fetchLog := DownloadLog(s, c.toolkitUrl);
    if fetched.Failure? then Step(Failure(fetched.error), s1, fetchLog)
    else
      var extract := ExtractCommand(fetched.value, tempDir);
      var command := UninstallCommand(Cuda.UninstallerPath(tempDir, c));
      if extract in s.failing then Step(Failure(NonzeroExit), s1, fetchLog + [extract])
      else if command in s.failing then Step(Failure(NonzeroExit), s1, fetchLog + [extract, command])
      else
        var unlock := MarkEffect(s1.(smi := Missing), false);
        Step(unlock.result, unlock.after, fetchLog + ([extract, command] + unlock.commands))
  }

  /** `uninstall_driver`: nothing beyond the check when the driver does not verify. */
  function UninstallEffect(s: System, version: Cuda.CudaVersion, tempDir: string): Step {
    if !Healthy(s) then Step(Success(()), s, VerifyLog(s))
    else
      var removal := RemovalEffect(s, Cuda.NewConfig(version), tempDir);
      Step(removal.result, removal.after, VerifyLog(s) + removal.commands)
  }

  /** The end of `install_cuda_inner` and `install_cuda`'s reboot: the post-install actions, whose
      failure panics, then `reboot now`. */
  function PostToolkitEffect(s: System, c: Cuda.CudaConfig): Finish {
    var post := PostInstallEffect(s, c);
    if post.result.Failure? then Finish(Panicked, post.after, post.commands)
    else Finish(if RebootCommand in s.failing then Panicked else Rebooted, post.after, post.commands + [RebootCommand])
  }

  /** The toolkit part of `install_cuda_inner`, then the rest; a failure on the way panics. */
  function ToolkitEffect(s: System, c: Cuda.CudaConfig): Finish {
    var fetched := DownloadResult(s, c.toolkitUrl, c.toolkitChecksum);
    var s1 := s.(files := FilesAfterDownload(s, c.toolkitUrl));
    var fetchLog := DownloadLog(s, c.toolkitUrl);
    if fetched.Failure? then Finish(Panicked, s1, fetchLog)
    else
      var command := ToolkitCommand(fetched.value);
      if command in s.failing then Finish(Panicked, s1, fetchLog + [command])
      else
        var rest := PostToolkitEffect(s1.(toolkitInstalled := true), c);
        Finish(rest.ending, rest.after, fetchLog + ([command] + rest.commands))
  }

  /** `install_cuda`: the driver first when it does not verify (its failure panics), then the
      toolkit and the reboot. */
  function InstallCudaEffect(s: System, provider: App.CloudProvider, version: Cuda.CudaVersion): Finish {
    var c := Cuda.NewConfig(version);
    if Healthy(s) then
      var toolkit := ToolkitEffect(s, c);
      Finish(toolkit.ending, toolkit.after, VerifyLog(s) + toolkit.commands)
    else
      var driver := InstallDriverEffect(s, provider, version);
      if !driver.ending.Returned? then Finish(driver.ending, driver.after, VerifyLog(s) + driver.commands)
      else if driver.ending.result.Failure? then Finish(Panicked, driver.after, VerifyLog(s) + driver.commands)
      else
        var toolkit := ToolkitEffect(driver.after, c);
        Finish(toolkit.ending, toolkit.after, VerifyLog(s) + (driver.commands + toolkit.commands))
  }

  lemma AppendAssoc4(a: seq<string>, b: seq<string>, c: seq<string>, d: seq<string>)
    ensures ((a + b) + c) + d == a + (b + (c + d))
  {
  }

  lemma AppendAssoc5(a: seq<string>, b: seq<string>, c: seq<string>, d: seq<string>, e: seq<string>)
    ensures (((a + b) + c) + d) + e == a + (b + (c + (d + e)))
  {
  }

  /** Holding or releasing the kernel changes only the held set, and only when it succeeds: by
      adding or removing exactly the kernel's four packages. */
  lemma MarkEffectBounds(s: System, hold: bool)
    ensures var e := MarkEffect(s, hold); e.after == s.(held := e.after.held)
    ensures var e := MarkEffect(s, hold);
      e.result.Success? <==> UnameCommand !in s.failing
                             && (if hold then HoldCommand(Trim(s.release)) else UnholdCommand(Trim(s.release))) !in s.failing
    ensures var e := MarkEffect(s, hold);
      e.after.held == (if e.result.Failure? then s.held
                       else if hold then s.held + HoldSet(Trim(s.release))
                       else s.held - HoldSet(Trim(s.release)))
    ensures var e := MarkEffect(s, hold); |e.commands| >= 1 && e.commands[0] == UnameCommand
  {
    var release := Trim(s.release);
    var command := if hold then HoldCommand(release) else UnholdCommand(release);
    if UnameCommand in s.failing || command in s.failing {
      assert MarkEffect(s, hold).after == s;
    } else if hold {
      assert MarkEffect(s, hold).after == s.(held := s.held + HoldSet(release));
    } else {
      assert MarkEffect(s, hold).after == s.(held := s.held - HoldSet(release));
    }
  }

  /** The driver step changes only the files, nvidia-smi and the held set: nvidia-smi only to what
      the runfile installs, the held set only by the kernel hold, and only once the driver verifies. */
  lemma DriverEffectBounds(s: System, c: Cuda.CudaConfig)
    ensures var e := DriverEffect(s, c);
      e.after == s.(held := e.after.held, files := FilesAfterDownload(s, c.toolkitUrl), smi := e.after.smi)
    ensures s.files.Keys <= DriverEffect(s, c).after.files.Keys
    ensures var e := DriverEffect(s, c); e.after.smi != s.smi ==> e.after.smi == s.smiAfterDriver
    ensures var e := DriverEffect(s, c);
      e.after.held != s.held ==> Healthy(e.after) && e.after.held == s.held + HoldSet(Trim(s.release))
    ensures var e := DriverEffect(s, c);
      e.result.Success? ==>
        e.after.smi == s.smiAfterDriver
        && e.after.held == (if Healthy(e.after) then s.held + HoldSet(Trim(s.release)) else s.held)
  {
    var fetched := DownloadResult(s, c.toolkitUrl, c.toolkitChecksum);
    var s1 := s.(files := FilesAfterDownload(s, c.toolkitUrl));
    if fetched.Success? && DriverCommand(fetched.value) !in s.failing {
      var s2 := s1.(smi := s.smiAfterDriver);
      if Healthy(s2) {
        MarkEffectBounds(s2, true);
        var lock := MarkEffect(s2, true);
        assert DriverEffect(s, c).after == lock.after && DriverEffect(s, c).result == lock.result;
        assert Healthy(lock.after) by {
          assert lock.after.smi == s2.smi;
        }
      } else {
        assert DriverEffect(s, c).after == s2;
      }
    } else {
      assert DriverEffect(s, c).after == s1;
    }
  }

  /** With no failing command and a download whose checksum matches, the driver runfile runs and
      the step succeeds, holding the kernel exactly when the new driver verifies. */
  lemma DriverEffectSucceeds(s: System, c: Cuda.CudaConfig)
    requires s.failing == {} && DownloadResult(s, c.toolkitUrl, c.toolkitChecksum).Success?
    ensures var e := DriverEffect(s, c);
      e.result == Success(()) && e.after.smi == s.smiAfterDriver
      && e.after.held == (if Healthy(e.after) then s.held + HoldSet(Trim(s.release)) else s.held)
      && DriverCommand(Fetch.FileName(c.toolkitUrl)) in e.commands
  {
  }

  /** `install_driver` reboots exactly when the dependencies ask for it (and the reboot command
      works), panics exactly when they panic or the reboot fails, and otherwise returns what the
      driver step returns, whether or not the driver then verifies. A reboot leaves the machine as
      it was and is the last command. */
  lemma InstallDriverGate(s: System, provider: App.CloudProvider, version: Cuda.CudaVersion)
    ensures var gate := DependencyPlan(s, App.KernelSuffix(provider)).0;
      var e := InstallDriverEffect(s, provider, version);
      (e.ending.Rebooted? <==> gate == RebootRequired && RebootCommand !in s.failing)
      && (e.ending.Returned? <==> gate == Ready)
      && (gate == Ready ==> e.ending == Returned(DriverEffect(s, Cuda.NewConfig(version)).result))
    ensures var e := InstallDriverEffect(s, provider, version);
      e.ending.Rebooted? ==> e.after == s && |e.commands| >= 1 && e.commands[|e.commands| - 1] == RebootCommand
  {
    var deps := DependencyPlan(s, App.KernelSuffix(provider));
    var e := InstallDriverEffect(s, provider, version);
    if deps.0 == Ready {
      var driver := DriverEffect(s, Cuda.NewConfig(version));
      assert e == Finish(Returned(driver.result), driver.after, deps.1 + driver.commands);
    } else if deps.0 == RebootRequired {
      assert e.after == s && e.commands == deps.1 + [RebootCommand];
    } else {
      assert e == Finish(Panicked, s, deps.1);
    }
  }

  /** With no failing command, a release that names a line and a good download, `install_driver`
      reboots exactly when the running kernel is not the newest of its line; otherwise it runs the
      driver runfile and returns `Ok(())`. */
  lemma InstallDriverSucceeds(s: System, provider: App.CloudProvider, version: Cuda.CudaVersion)
    requires s.failing == {} && '.' in Trim(s.release)
    requires DownloadResult(s, Cuda.NewConfig(version).toolkitUrl, Cuda.NewConfig(version).toolkitChecksum).Success?
    ensures var e := InstallDriverEffect(s, provider, version);
      var w := Target(s, App.KernelSuffix(provider)).value;
      (e.ending == Rebooted <==> !KernelMatches(s, w))
      && (KernelMatches(s, w) ==>
            e.ending == Returned(Success(()))
            && DriverCommand(Fetch.FileName(Cuda.NewConfig(version).toolkitUrl)) in e.commands)
  {
    var suffix := App.KernelSuffix(provider);
    var w := Target(s, suffix).value;
    DependencySteps(s, suffix, w);
    CheckGate(s, w);
    DriverEffectSucceeds(s, Cuda.NewConfig(version));
  }

  /** `uninstall_driver` changes only the files, nvidia-smi and the held set: nothing at all when the
      driver does not verify; nvidia-smi can only disappear, and the hold is released only once the
      driver is gone, never on a failure. */
  lemma UninstallEffectBounds(s: System, version: Cuda.CudaVersion, tempDir: string)
    ensures !Healthy(s) ==> UninstallEffect(s, version, tempDir) == Step(Success(()), s, VerifyLog(s))
    ensures var e := UninstallEffect(s, version, tempDir);
      e.after == s.(held := e.after.held, files := e.after.files, smi := e.after.smi)
      && s.files.Keys <= e.after.files.Keys
    ensures var e := UninstallEffect(s, version, tempDir);
      e.after.smi != s.smi ==> e.after.smi == Missing
    ensures var e := UninstallEffect(s, version, tempDir);
      e.after.held != s.held ==> e.after.smi == Missing && e.after.held == s.held - HoldSet(Trim(s.release))
    ensures var e := UninstallEffect(s, version, tempDir);
      e.result.Failure? ==> e.after.held == s.held
  {
    if Healthy(s) {
      var c := Cuda.NewConfig(version);
      var fetched := DownloadResult(s, c.toolkitUrl, c.toolkitChecksum);
      var s1 := s.(files := FilesAfterDownload(s, c.toolkitUrl));
      if fetched.Success? && ExtractCommand(fetched.value, tempDir) !in s.failing
         && UninstallCommand(Cuda.UninstallerPath(tempDir, c)) !in s.failing {
        var s2 := s1.(smi := Missing);
        MarkEffectBounds(s2, false);
        var unlock := MarkEffect(s2, false);
        assert UninstallEffect(s, version, tempDir).after == unlock.after;
        assert UninstallEffect(s, version, tempDir).result == unlock.result;
      } else {
        assert UninstallEffect(s, version, tempDir).after == s1;
      }
    }
  }

  /** With no failing command, a verified driver and a good download, `uninstall_driver` extracts
      the driver's runfile, runs its uninstaller, and then releases the hold: nvidia-smi is gone and
      the kernel's packages are no longer held. */
  lemma UninstallEffectSucceeds(s: System, version: Cuda.CudaVersion, tempDir: string)
    requires s.failing == {} && Healthy(s)
    requires DownloadResult(s, Cuda.NewConfig(version).toolkitUrl, Cuda.NewConfig(version).toolkitChecksum).Success?
    ensures var e := UninstallEffect(s, version, tempDir);
      e.result == Success(()) && e.after.smi == Missing && e.after.held == s.held - HoldSet(Trim(s.release))
    ensures var c := Cuda.NewConfig(version);
      UninstallEffect(s, version, tempDir).commands
        == (VerifyLog(s) + DownloadLog(s, c.toolkitUrl))
           + [ExtractCommand(Fetch.FileName(c.toolkitUrl), tempDir),
              UninstallCommand(Cuda.UninstallerPath(tempDir, c)),
              UnameCommand,
              UnholdCommand(Trim(s.release))]
  {
    var c := Cuda.NewConfig(version);
    RemovalSucceeds(s, c, tempDir);
    var tail := [ExtractCommand(Fetch.FileName(c.toolkitUrl), tempDir), UninstallCommand(Cuda.UninstallerPath(tempDir, c)),
                 UnameCommand, UnholdCommand(Trim(s.release))];
    AppendAssoc(VerifyLog(s), DownloadLog(s, c.toolkitUrl), tail);
  }

  lemma RemovalSucceeds(s: System, c: Cuda.CudaConfig, tempDir: string)
    requires s.failing == {} && DownloadResult(s, c.toolkitUrl, c.toolkitChecksum).Success?
    ensures var e := RemovalEffect(s, c, tempDir);
      e.result == Success(()) && e.after.smi == Missing && e.after.held == s.held - HoldSet(Trim(s.release))
    ensures RemovalEffect(s, c, tempDir).commands
        == DownloadLog(s, c.toolkitUrl)
           + [ExtractCommand(Fetch.FileName(c.toolkitUrl), tempDir),
              UninstallCommand(Cuda.UninstallerPath(tempDir, c)),
              UnameCommand,
              UnholdCommand(Trim(s.release))]
  {
    var fetched := DownloadResult(s, c.toolkitUrl, c.toolkitChecksum);
    var s2 := s.(files := FilesAfterDownload(s, c.toolkitUrl)).(smi := Missing);
    var unlock := MarkEffect(s2, false);
    var extract := ExtractCommand(fetched.value, tempDir);
    var uninstall := UninstallCommand(Cuda.UninstallerPath(tempDir, c));
    RemovalSuccessBranch(s, c, tempDir);
    assert unlock.commands == [UnameCommand, UnholdCommand(Trim(s.release))] by {
      MarkEffectBounds(s2, false);
    }
    PairThenPair(extract, uninstall, UnameCommand, UnholdCommand(Trim(s.release)));
    MarkEffectBounds(s2, false);
  }

  /** The branch `uninstall_driver` takes when nothing fails. */
  lemma RemovalSuccessBranch(s: System, c: Cuda.CudaConfig, tempDir: string)
    requires s.failing == {} && DownloadResult(s, c.toolkitUrl, c.toolkitChecksum).Success?
    ensures var unlock := MarkEffect(s.(files := FilesAfterDownload(s, c.toolkitUrl)).(smi := Missing), false);
      RemovalEffect(s, c, tempDir)
        == Step(unlock.result, unlock.after,
                DownloadLog(s, c.toolkitUrl)
                + ([ExtractCommand(DownloadResult(s, c.toolkitUrl, c.toolkitChecksum).value, tempDir),
                    UninstallCommand(Cuda.UninstallerPath(tempDir, c))]
                   + unlock.commands))
  {
  }

  lemma PairThenPair(a: string, b: string, c: string, d: string)
    ensures [a, b] + [c, d] == [a, b, c, d]
  {
  }

  /** The post-install actions and the reboot never return; they write the environment and the
      profile fragment and nothing else, and a reboot is the last command. */
  lemma PostToolkitBounds(s: System, c: Cuda.CudaConfig)
    ensures !PostToolkitEffect(s, c).ending.Returned?
    ensures PostToolkitEffect(s, c).after == s.(env := PostInstallEnv(s.env, c), profile := Some(Cuda.ProfileText(c)))
    ensures var e := PostToolkitEffect(s, c);
      e.ending.Rebooted? ==> |e.commands| >= 1 && e.commands[|e.commands| - 1] == RebootCommand
  {
  }

  /** The toolkit step never returns: it reboots or panics. It starts with the download, and a
      reboot comes last, after the toolkit is installed, the environment and the profile fragment
      are written, and with the driver and the held set untouched. */
  lemma ToolkitEffectBounds(s: System, c: Cuda.CudaConfig)
    ensures !ToolkitEffect(s, c).ending.Returned?
    ensures Extends(ToolkitEffect(s, c).commands, DownloadLog(s, c.toolkitUrl))
    ensures var e := ToolkitEffect(s, c);
      e.ending.Rebooted? ==>
        e.after.toolkitInstalled && e.after.profile == Some(Cuda.ProfileText(c))
        && e.after.env == PostInstallEnv(s.env, c) && e.after.smi == s.smi && e.after.held == s.held
        && |e.commands| >= 1 && e.commands[|e.commands| - 1] == RebootCommand
  {
    var fetched := DownloadResult(s, c.toolkitUrl, c.toolkitChecksum);
    var fetchLog := DownloadLog(s, c.toolkitUrl);
    var e := ToolkitEffect(s, c);
    if fetched.Success? && ToolkitCommand(fetched.value) !in s.failing {
      var s1 := s.(files := FilesAfterDownload(s, c.toolkitUrl));
      var rest := PostToolkitEffect(s1.(toolkitInstalled := true), c);
      assert e == Finish(rest.ending, rest.after, fetchLog + ([ToolkitCommand(fetched.value)] + rest.commands));
      ToolkitTail(s1, c, fetchLog, ToolkitCommand(fetched.value));
    } else if fetched.Success? {
      assert e.commands == fetchLog + [ToolkitCommand(fetched.value)];
      ExtendsAppend(fetchLog, [ToolkitCommand(fetched.value)]);
    } else {
      assert e.commands == fetchLog + [];
      ExtendsAppend(fetchLog, []);
    }
  }

  /** What follows a successful toolkit run, after any earlier commands: it never returns, and a
      reboot comes last with the toolkit installed and the environment and profile written. */
  lemma ToolkitTail(s1: System, c: Cuda.CudaConfig, earlier: seq<string>, command: string)
    ensures var rest := PostToolkitEffect(s1.(toolkitInstalled := true), c);
      var all := earlier + ([command] + rest.commands);
      !rest.ending.Returned? && Extends(all, earlier)
      && (rest.ending.Rebooted? ==>
            rest.after.toolkitInstalled && rest.after.profile == Some(Cuda.ProfileText(c))
            && rest.after.env == PostInstallEnv(s1.env, c) && rest.after.smi == s1.smi
            && rest.after.held == s1.held && |all| >= 1 && all[|all| - 1] == RebootCommand)
  {
    var rest := PostToolkitEffect(s1.(toolkitInstalled := true), c);
    var tail := [command] + rest.commands;
    PostToolkitBounds(s1.(toolkitInstalled := true), c);
    ExtendsAppend(earlier, tail);
    if rest.ending.Rebooted? {
      assert (earlier + tail)[|earlier + tail| - 1] == rest.commands[|rest.commands| - 1];
    }
  }

  /** With no failing command and a good download, the toolkit runfile runs and the step reboots. */
  lemma ToolkitEffectSucceeds(s: System, c: Cuda.CudaConfig)
    requires s.failing == {} && DownloadResult(s, c.toolkitUrl, c.toolkitChecksum).Success?
    ensures var e := ToolkitEffect(s, c);
      e.ending == Rebooted && ToolkitCommand(Fetch.FileName(c.toolkitUrl)) in e.commands
      && e.after.toolkitInstalled && e.after.profile == Some(Cuda.ProfileText(c))
  {
  }

  /** `install_cuda` never returns. A run with a driver that does not verify starts like
      `install_driver`; one with a verified driver goes straight to the toolkit download, and its
      reboot leaves the driver and the held set as they were. */
  lemma InstallCudaEffectBounds(s: System, provider: App.CloudProvider, version: Cuda.CudaVersion)
    ensures !InstallCudaEffect(s, provider, version).ending.Returned?
    ensures !Healthy(s) ==> Extends(InstallCudaEffect(s, provider, version).commands, VerifyLog(s) + [UpdateCommand])
    ensures Healthy(s) ==>
              Extends(InstallCudaEffect(s, provider, version).commands,
                      VerifyLog(s) + DownloadLog(s, Cuda.NewConfig(version).toolkitUrl))
    ensures var e := InstallCudaEffect(s, provider, version);
      e.ending.Rebooted? && Healthy(s) ==>
        e.after.toolkitInstalled && e.after.profile == Some(Cuda.ProfileText(Cuda.NewConfig(version)))
        && e.after.smi == s.smi && e.after.held == s.held
  {
    if Healthy(s) {
      InstallCudaWithDriver(s, provider, version);
    } else {
      InstallCudaWithoutDriver(s, provider, version);
    }
  }

  /** `install_cuda` on a machine whose driver verifies: straight to the toolkit. */
  lemma InstallCudaWithDriver(s: System, provider: App.CloudProvider, version: Cuda.CudaVersion)
    requires Healthy(s)
    ensures var c := Cuda.NewConfig(version); var toolkit := ToolkitEffect(s, c);
      InstallCudaEffect(s, provider, version) == Finish(toolkit.ending, toolkit.after, VerifyLog(s) + toolkit.commands)
    ensures !InstallCudaEffect(s, provider, version).ending.Returned?
    ensures Extends(InstallCudaEffect(s, provider, version).commands,
                    VerifyLog(s) + DownloadLog(s, Cuda.NewConfig(version).toolkitUrl))
    ensures var e := InstallCudaEffect(s, provider, version);
      e.ending.Rebooted? ==>
        e.after.toolkitInstalled && e.after.profile == Some(Cuda.ProfileText(Cuda.NewConfig(version)))
        && e.after.smi == s.smi && e.after.held == s.held
  {
    var c := Cuda.NewConfig(version);
    var toolkit := ToolkitEffect(s, c);
    ToolkitEffectBounds(s, c);
    ExtendsPrefix(VerifyLog(s), toolkit.commands, DownloadLog(s, c.toolkitUrl));
  }

  /** `install_cuda` on a machine whose driver does not verify: `install_driver` first. */
  lemma InstallCudaWithoutDriver(s: System, provider: App.CloudProvider, version: Cuda.CudaVersion)
    requires !Healthy(s)
    ensures !InstallCudaEffect(s, provider, version).ending.Returned?
    ensures Extends(InstallCudaEffect(s, provider, version).commands, VerifyLog(s) + [UpdateCommand])
  {
    var c := Cuda.NewConfig(version);
    var e := InstallCudaEffect(s, provider, version);
    var driver := InstallDriverEffect(s, provider, version);
    if driver.ending.Returned? && driver.ending.result.Success? {
      var toolkit := ToolkitEffect(driver.after, c);
      assert e == Finish(toolkit.ending, toolkit.after, VerifyLog(s) + (driver.commands + toolkit.commands));
      ToolkitEffectBounds(driver.after, c);
      ExtendsFirst(VerifyLog(s), driver.commands + toolkit.commands, UpdateCommand);
    } else if driver.ending.Returned? {
      assert e == Finish(Panicked, driver.after, VerifyLog(s) + driver.commands);
      ExtendsFirst(VerifyLog(s), driver.commands, UpdateCommand);
    } else {
      assert e == Finish(driver.ending, driver.after, VerifyLog(s) + driver.commands);
      ExtendsFirst(VerifyLog(s), driver.commands, UpdateCommand);
    }
  }

  /** With no failing command, a release that names a line and a good download, `install_cuda`
      always ends in `reboot now`. The toolkit is installed unless the reboot is the one
      `install_driver` asks for to switch kernels, which leaves the machine as it was. */
  lemma InstallCudaReboots(s: System, provider: App.CloudProvider, version: Cuda.CudaVersion)
    requires s.failing == {} && '.' in Trim(s.release)
    requires DownloadResult(s, Cuda.NewConfig(version).toolkitUrl, Cuda.NewConfig(version).toolkitChecksum).Success?
    ensures InstallCudaEffect(s, provider, version).ending == Rebooted
    ensures var e := InstallCudaEffect(s, provider, version);
      Healthy(s) || KernelMatches(s, Target(s, App.KernelSuffix(provider)).value) ==>
        e.after.toolkitInstalled && e.after.profile == Some(Cuda.ProfileText(Cuda.NewConfig(version)))
    ensures var e := InstallCudaEffect(s, provider, version);
      !Healthy(s) && !KernelMatches(s, Target(s, App.KernelSuffix(provider)).value) ==> e.after == s
  {
    var c := Cuda.NewConfig(version);
    if Healthy(s) {
      InstallCudaWithDriver(s, provider, version);
      ToolkitEffectSucceeds(s, c);
    } else {
      var e := InstallCudaEffect(s, provider, version);
      var driver := InstallDriverEffect(s, provider, version);
      InstallDriverSucceeds(s, provider, version);
      if KernelMatches(s, Target(s, App.KernelSuffix(provider)).value) {
        InstallCudaAfterDriver(s, provider, version);
      } else {
        InstallDriverGate(s, provider, version);
        assert e == Finish(driver.ending, driver.after, VerifyLog(s) + driver.commands);
      }
    }
  }

  /** Once `install_driver` has returned `Ok(())`, the toolkit download finds the same runfile on
      disk, and with nothing failing the toolkit is installed and the machine reboots. */
  lemma InstallCudaAfterDriver(s: System, provider: App.CloudProvider, version: Cuda.CudaVersion)
    requires s.failing == {} && !Healthy(s)
    requires InstallDriverEffect(s, provider, version).ending == Returned(Success(()))
    requires DownloadResult(s, Cuda.NewConfig(version).toolkitUrl, Cuda.NewConfig(version).toolkitChecksum).Success?
    ensures var e := InstallCudaEffect(s, provider, version);
      e.ending == Rebooted && e.after.toolkitInstalled
      && e.after.profile == Some(Cuda.ProfileText(Cuda.NewConfig(version)))
  {
    var c := Cuda.NewConfig(version);
    var driver := InstallDriverEffect(s, provider, version);
    var toolkit := ToolkitEffect(driver.after, c);
    assert InstallCudaEffect(s, provider, version)
        == Finish(toolkit.ending, toolkit.after, VerifyLog(s) + (driver.commands + toolkit.commands));
    InstallDriverGate(s, provider, version);
    DriverEffectBounds(s, c);
    DownloadAgain(s, driver.after, c.toolkitUrl, c.toolkitChecksum);
    ToolkitEffectSucceeds(driver.after, c);
  }

  // ---------------------------------------------------------------------------
  // The machine

  class Host {
    var sys: System
    var log: seq<string>

    constructor (initial: System)
      ensures sys == initial && log == []
    {
      sys := initial;
      log := [];
    }

    /** `run(command, check, None, silent, 0)`: one attempt, whose outcome the machine gives. */
    method Exec(command: string, check: bool, silent: bool, attempt: Attempt)
      returns (r: Result<Output, IoError>)
      modifies this
      ensures sys == old(sys) && log == old(log) + [command]
      ensures r == Settle(check, attempt)
    {
      var tries;
      r, tries := Run(command, check, None, silent, 0, [attempt]);
      log := log + [command];
    }

    /** An unchecked command whose exit status is all that is used: it succeeds when `ok` holds
        and the command is not listed as failing. */
    method Query(command: string, ok: bool) returns (success: bool)
      modifies this
      ensures sys == old(sys) && log == old(log) + [command]
      ensures success == (ok && command !in old(sys).failing)
    {
      var out := Exec(command, false, true, Reply(sys, command, ok, ""));
      success := out.value.status.Success();
    }

    /** `get_kernel_version`: the trimmed output of `uname -r`. */
    method GetKernelVersion() returns (r: Result<string, IoError>)
      modifies this
      ensures sys == old(sys) && log == old(log) + [UnameCommand]
      ensures r == KernelVersion(old(sys))
      ensures r.Success? ==> r.value == Trim(sys.release)
    {
      var out := Exec(UnameCommand, true, false, Reply(sys, UnameCommand, true, sys.release));
      if out.Failure? {
        return Failure(out.error);
      }
      r := Success(Trim(out.value.stdout));
    }

    /**
     * `download_file(url, md5)`: fetch the file named after the URL unless it is already there,
     * then check its md5 sum. The file is never deleted, not even on a mismatch.
     */
    method DownloadFile(url: string, md5: string) returns (r: Result<string, IoError>)
      modifies this
      ensures sys == old(sys).(files := FilesAfterDownload(old(sys), url))
      ensures log == old(log) + DownloadLog(old(sys), url)
      ensures Fetch.FileName(url) in old(sys.files) ==> CurlCommand(url) !in log[|old(log)|..]
      ensures r.Success? ==> r.value == Fetch.FileName(url) && r.value in sys.files
                             && Fetch.ReportedChecksum(sys.files[r.value]) == md5
      ensures r.Failure? && r.error.ChecksumMismatch? ==>
                r.error.path == Fetch.FileName(url) && r.error.path in sys.files
                && Fetch.ReportedChecksum(sys.files[r.error.path]) != md5
      ensures Fetch.FileName(url) in sys.files && Md5Command(Fetch.FileName(url)) !in sys.failing ==>
                r.Success? || r == Failure(ChecksumMismatch(Fetch.FileName(url)))
      ensures old(sys.files).Keys <= sys.files.Keys
      ensures r == DownloadResult(old(sys), url, md5)
    {
      var name := Fetch.FileName(url);
      if name !in sys.files {
        var fetched := Exec(CurlCommand(url), true, false, Reply(sys, CurlCommand(url), url in sys.mirror, ""));
        if fetched.Failure? {
          return Failure(fetched.error);
        }
        sys := sys.(files := sys.files[name := sys.mirror[url]]);
      }
      var summed := Exec(Md5Command(name), true, true,
                         Reply(sys, Md5Command(name), name in sys.files, if name in sys.files then sys.files[name] else ""));
      if summed.Failure? {
        return Failure(summed.error);
      }
      var checksum := Fetch.ReportedChecksum(summed.value.stdout);
      if checksum != md5 {
        return Failure(ChecksumMismatch(name));
      }
      r := Success(name);
    }

    /** `lock_kernel_updates_debian`: hold the running kernel's packages. */
    method LockKernelUpdates() returns (r: Result<(), IoError>)
      modifies this
      ensures r.Success? <==> KernelVersion(old(sys)).Success? && HoldCommand(Trim(old(sys).release)) !in old(sys).failing
      ensures r.Success? ==> sys == old(sys).(held := old(sys).held + HoldSet(Trim(old(sys).release)))
      ensures r.Failure? ==> sys == old(sys)
      ensures log == old(log) + [UnameCommand]
                     + (if KernelVersion(old(sys)).Success? then [HoldCommand(Trim(old(sys).release))] else [])
      ensures r == MarkEffect(old(sys), true).result && sys == MarkEffect(old(sys), true).after
      ensures log == old(log) + MarkEffect(old(sys), true).commands
    {
      var release := GetKernelVersion();
      if release.Failure? {
        return Failure(release.error);
      }
      var command := HoldCommand(release.value);
      var out := Exec(command, true, false, Reply(sys, command, true, ""));
      if out.Failure? {
        return Failure(out.error);
      }
      sys := sys.(held := sys.held + HoldSet(release.value));
      r := Success(());
    }

    /** `unlock_kernel_updates_debian`: release the hold on the running kernel's packages. */
    method UnlockKernelUpdates() returns (r: Result<(), IoError>)
      modifies this
      ensures r.Success? <==> KernelVersion(old(sys)).Success? && UnholdCommand(Trim(old(sys).release)) !in old(sys).failing
      ensures r.Success? ==> sys == old(sys).(held := old(sys).held - HoldSet(Trim(old(sys).release)))
      ensures r.Failure? ==> sys == old(sys)
      ensures log == old(log) + [UnameCommand]
                     + (if KernelVersion(old(sys)).Success? then [UnholdCommand(Trim(old(sys).release))] else [])
      ensures r == MarkEffect(old(sys), false).result && sys == MarkEffect(old(sys), false).after
      ensures log == old(log) + MarkEffect(old(sys), false).commands
    {
      var release := GetKernelVersion();
      if release.Failure? {
        return Failure(release.error);
      }
      var command := UnholdCommand(release.value);
      var out := Exec(command, true, false, Reply(sys, command, true, ""));
      if out.Failure? {
        return Failure(out.error);
      }
      sys := sys.(held := sys.held - HoldSet(release.value));
      r := Success(());
    }

    /** `reboot`: `reboot now`, after which the process is gone; a failing reboot panics. */
    method Reboot() returns (ending: Ending)
      modifies this
      ensures sys == old(sys) && log == old(log) + [RebootCommand]
      ensures ending == (if RebootCommand in old(sys).failing then Panicked else Rebooted)
    {
      var out := Exec(RebootCommand, true, false, Reply(sys, RebootCommand, true, ""));
      if out.Failure? {
        return Panicked;
      }
      ending := Rebooted;
    }

    /** `verify_driver`: `nvidia-smi` is on the PATH, and its device listing succeeds and names a
        device UUID. Nothing on the machine changes. */
    method VerifyDriver(verbose: bool) returns (r: Result<bool, IoError>)
      modifies this
      ensures sys == old(sys) && log == old(log) + VerifyLog(old(sys))
      ensures r == Success(Healthy(old(sys)))
    {
      var which := Exec(WhichCommand, false, true, Reply(sys, WhichCommand, sys.smi.Present?, ""));
      if !which.value.status.Success() {
        return Success(false);
      }
      var listing := Exec(ListCommand, false, true, ListReply(sys));
      r := Success(listing.value.status.Success() && Contains(listing.value.stdout, "UUID"));
    }

    /** The `cuda verify-driver` command: exit code 0 exactly when the driver verifies. */
    method VerifyDriverCommand() returns (code: int)
      modifies this
      ensures sys == old(sys) && log == old(log) + VerifyLog(old(sys))
      ensures code == (if Healthy(old(sys)) then 0 else 1)
    {
      var verified := VerifyDriver(true);
      code := App.VerifyDriverExitCode(verified);
    }

    /** The end of `install_dependencies_debian`: install the wanted kernel and headers, and ask
        for a reboot when the running kernel is not the wanted one. */
    method InstallKernel(w: Wanted, kernelOk: bool) returns (gate: Gate)
      modifies this
      ensures sys == old(sys)
      ensures gate == InstallPlan(old(sys), w, kernelOk).0
      ensures log == old(log) + InstallPlan(old(sys), w, kernelOk).1
    {
      var installed := Exec(w.install, true, false, Reply(sys, w.install, true, ""));
      if installed.Failure? {
        return GatePanicked;
      }
      gate := if kernelOk then Ready else RebootRequired;
    }

    /** Is the wanted kernel running, are its headers installed; if not both, install them. */
    method CheckKernel(w: Wanted) returns (gate: Gate)
      modifies this
      ensures sys == old(sys)
      ensures gate == CheckPlan(old(sys), w).0
      ensures log == old(log) + CheckPlan(old(sys), w).1
    {
      var current := GetKernelVersion();
      if current.Failure? {
        return GatePanicked;
      }
      var kernelInstalled := Contains(current.value, w.pin);
      var probe := DpkgCommand(w.headers);
      var headersInstalled := Query(probe, w.headers in sys.headersListed);
      AppendAssoc(old(log), [UnameCommand], [probe]);
      if kernelInstalled && headersInstalled {
        return Ready;
      }
      gate := InstallKernel(w, kernelInstalled);
      AppendAssoc(old(log) + [UnameCommand], [probe], InstallPlan(sys, w, kernelInstalled).1);
      AppendAssoc(old(log), [UnameCommand], [probe] + InstallPlan(sys, w, kernelInstalled).1);
    }

    /** Search the index and pick the newest kernel of the running line (by the intended candidate
        rule), then check it. */
    method SearchKernel(major: string, minor: string, suffix: string) returns (gate: Gate)
      modifies this
      ensures sys == old(sys)
      ensures gate == SearchPlan(old(sys), major, minor, suffix).0
      ensures log == old(log) + SearchPlan(old(sys), major, minor, suffix).1
    {
      var search := Exec(SearchCommand, true, false, Reply(sys, SearchCommand, true, sys.packageIndex));
      if search.Failure? {
        return GatePanicked;
      }
      var maxPatch, maxMicro := Kernel.SelectNewest(search.value.stdout, major, minor, suffix);
      var w := WantedOf(major, minor, maxPatch, maxMicro, suffix);
      gate := CheckKernel(w);
      AppendAssoc(old(log), [SearchCommand], CheckPlan(sys, w).1);
    }

    /** `install_dependencies_debian` after `apt-get update`: read and parse the running release. */
    method ProbeKernel(suffix: string) returns (gate: Gate)
      modifies this
      ensures sys == old(sys)
      ensures gate == ProbePlan(old(sys), suffix).0
      ensures log == old(log) + ProbePlan(old(sys), suffix).1
    {
      var kernel := GetKernelVersion();
      if kernel.Failure? {
        return GatePanicked;
      }
      var lineOf := Kernel.MajorMinor(kernel.value);
      if lineOf.None? {
        return GatePanicked;
      }
      var major, minor := lineOf.value.0, lineOf.value.1;
      gate := SearchKernel(major, minor, suffix);
      AppendAssoc(old(log), [UnameCommand], SearchPlan(sys, major, minor, suffix).1);
    }

    /** `install_dependencies_debian`, with the intended candidate rule for the newest kernel. */
    method InstallDependencies(provider: App.CloudProvider) returns (gate: Gate)
      modifies this
      ensures sys == old(sys)
      ensures gate == DependencyPlan(old(sys), App.KernelSuffix(provider)).0
      ensures log == old(log) + DependencyPlan(old(sys), App.KernelSuffix(provider)).1
    {
      var suffix := App.KernelSuffix(provider);
      var updated := Exec(UpdateCommand, true, false, Reply(sys, UpdateCommand, true, ""));
      if updated.Failure? {
        return GatePanicked;
      }
      gate := ProbeKernel(suffix);
      AppendAssoc(old(log), [UpdateCommand], ProbePlan(sys, suffix).1);
    }

    /** `configure_persistanced_service`: only when both the daemon and its installer archive are
        present, unpack the archive and run its install script. */
    method ConfigurePersistenced() returns (r: Result<(), IoError>)
      modifies this
      ensures r == PersistencedEffect(old(sys)).result && sys == PersistencedEffect(old(sys)).after
      ensures log == old(log) + PersistencedEffect(old(sys)).commands
    {
      if Cuda.PersistencedBinary !in sys.files || Cuda.PersistencedInstaller !in sys.files {
        return Success(());
      }
      var unpacked := Exec(ExtractPersistenced, true, true, Reply(sys, ExtractPersistenced, true, ""));
      if unpacked.Failure? {
        return Failure(unpacked.error);
      }
      var installed := Exec(RunPersistenced, true, false, Reply(sys, RunPersistenced, true, ""));
      if installed.Failure? {
        return Failure(installed.error);
      }
      r := Success(());
    }

    /** `cuda_postinstallation_actions`: prepend the toolkit's folders to PATH and LD_LIBRARY_PATH,
        write the profile fragment, then set up the persistence daemon. */
    method PostInstall(config: Cuda.CudaConfig) returns (r: Result<(), IoError>)
      modifies this
      ensures r == PostInstallEffect(old(sys), config).result && sys == PostInstallEffect(old(sys), config).after
      ensures log == old(log) + PostInstallEffect(old(sys), config).commands
    {
      var path := Cuda.PrependedPath(config.binFolder, EnvVar(sys.env, "PATH"));
      sys := sys.(env := sys.env["PATH" := path]);
      var libraryPath := Cuda.PrependedLibraryPath(config.libFolder, EnvVar(sys.env, "LD_LIBRARY_PATH"));
      sys := sys.(env := sys.env["LD_LIBRARY_PATH" := libraryPath]);
      sys := sys.(profile := Some(Cuda.ProfileText(config)));
      r := ConfigurePersistenced();
    }

    /** `install_driver` once the dependencies are in place: the toolkit runfile's driver part, then
        the kernel hold, which is applied only when the driver verifies. */
    method RunDriverInstaller(config: Cuda.CudaConfig) returns (r: Result<(), IoError>)
      modifies this
      ensures r == DriverEffect(old(sys), config).result && sys == DriverEffect(old(sys), config).after
      ensures log == old(log) + DriverEffect(old(sys), config).commands
    {
      ghost var fetchLog := DownloadLog(sys, config.toolkitUrl);
      var installer := DownloadFile(config.toolkitUrl, config.toolkitChecksum);
      if installer.Failure? {
        return Failure(installer.error);
      }
      var command := DriverCommand(installer.value);
      var ran := Exec(command, true, false, Reply(sys, command, true, ""));
      if ran.Failure? {
        return Failure(ran.error);
      }
      sys := sys.(smi := sys.smiAfterDriver);
      ghost var installed := sys;
      var verified := VerifyDriver(true);
      if !verified.value {
        AppendAssoc4(old(log), fetchLog, [command], VerifyLog(installed));
        return Success(());
      }
      r := LockKernelUpdates();
      AppendAssoc5(old(log), fetchLog, [command], VerifyLog(installed), MarkEffect(installed, true).commands);
    }

    /**
     * `install_driver`: dependencies (rebooting if they ask for it), then the driver runfile and
     * the kernel hold.
     */
    method InstallDriver(provider: App.CloudProvider, version: Cuda.CudaVersion) returns (ending: Ending)
      modifies this
      ensures ending == InstallDriverEffect(old(sys), provider, version).ending
      ensures sys == InstallDriverEffect(old(sys), provider, version).after
      ensures log == old(log) + InstallDriverEffect(old(sys), provider, version).commands
    {
      var config := Cuda.NewConfig(version);
      var gate := InstallDependencies(provider);
      ghost var deps := DependencyPlan(old(sys), App.KernelSuffix(provider)).1;
      if gate == GatePanicked {
        return Panicked;
      }
      if gate == RebootRequired {
        ending := Reboot();
        AppendAssoc(old(log), deps, [RebootCommand]);
        return;
      }
      var result := RunDriverInstaller(config);
      AppendAssoc(old(log), deps, DriverEffect(old(sys), config).commands);
      ending := Returned(result);
    }

    /** `uninstall_driver` once the driver verifies: the extracted uninstaller, then the unhold. */
    method RemoveDriver(config: Cuda.CudaConfig, tempDir: string) returns (r: Result<(), IoError>)
      modifies this
      ensures r == RemovalEffect(old(sys), config, tempDir).result
      ensures sys == RemovalEffect(old(sys), config, tempDir).after
      ensures log == old(log) + RemovalEffect(old(sys), config, tempDir).commands
    {
      ghost var fetchLog := DownloadLog(sys, config.toolkitUrl);
      var installer := DownloadFile(config.toolkitUrl, config.toolkitChecksum);
      if installer.Failure? {
        return Failure(installer.error);
      }
      var extract := ExtractCommand(installer.value, tempDir);
      var extracted := Exec(extract, true, false, Reply(sys, extract, true, ""));
      if extracted.Failure? {
        return Failure(extracted.error);
      }
      var command := UninstallCommand(Cuda.UninstallerPath(tempDir, config));
      var removed := Exec(command, true, false, Reply(sys, command, true, ""));
      ghost var steps := [extract, command];
      assert log == old(log) + (fetchLog + steps) by {
        AppendAssoc4(old(log), fetchLog, [extract], [command]);
        assert [extract] + [command] == steps;
      }
      if removed.Failure? {
        return Failure(removed.error);
      }
      sys := sys.(smi := Missing);
      ghost var marks := MarkEffect(sys, false).commands;
      r := UnlockKernelUpdates();
      assert log == old(log) + (fetchLog + (steps + marks)) by {
        AppendAssoc4(old(log), fetchLog, steps, marks);
      }
    }

    /**
     * `uninstall_driver`: nothing when the driver does not verify; otherwise extract the driver's
     * own runfile from the toolkit runfile into `tempDir`, run its uninstaller, and only then
     * release the kernel hold.
     */
    method UninstallDriver(version: Cuda.CudaVersion, tempDir: string) returns (r: Result<(), IoError>)
      modifies this
      ensures r == UninstallEffect(old(sys), version, tempDir).result
      ensures sys == UninstallEffect(old(sys), version, tempDir).after
      ensures log == old(log) + UninstallEffect(old(sys), version, tempDir).commands
    {
      var config := Cuda.NewConfig(version);
      var verified := VerifyDriver(false);
      if !verified.value {
        return Success(());
      }
      r := RemoveDriver(config, tempDir);
      AppendAssoc(old(log), VerifyLog(old(sys)), RemovalEffect(old(sys), config, tempDir).commands);
    }

    /** The post-install actions and the reboot; a failure panics. */
    method FinishToolkit(config: Cuda.CudaConfig) returns (ending: Ending)
      modifies this
      ensures ending == PostToolkitEffect(old(sys), config).ending && sys == PostToolkitEffect(old(sys), config).after
      ensures log == old(log) + PostToolkitEffect(old(sys), config).commands
    {
      var post := PostInstall(config);
      if post.Failure? {
        return Panicked;
      }
      ending := Reboot();
      AppendAssoc(old(log), PostInstallEffect(old(sys), config).commands, [RebootCommand]);
    }

    /** `install_cuda_inner` once the driver is in place, followed by `install_cuda`'s reboot: the
        toolkit runfile, the post-install actions, and the reboot. A failure on the way panics. */
    method InstallToolkit(config: Cuda.CudaConfig) returns (ending: Ending)
      modifies this
      ensures ending == ToolkitEffect(old(sys), config).ending && sys == ToolkitEffect(old(sys), config).after
      ensures log == old(log) + ToolkitEffect(old(sys), config).commands
    {
      ghost var fetchLog := DownloadLog(sys, config.toolkitUrl);
      var installer := DownloadFile(config.toolkitUrl, config.toolkitChecksum);
      if installer.Failure? {
        return Panicked;
      }
      var command := ToolkitCommand(installer.value);
      var ran := Exec(command, true, false, Reply(sys, command, true, ""));
      if ran.Failure? {
        return Panicked;
      }
      sys := sys.(toolkitInstalled := true);
      ghost var installed := sys;
      ending := FinishToolkit(config);
      AppendAssoc4(old(log), fetchLog, [command], PostToolkitEffect(installed, config).commands);
    }

    /**
     * `install_cuda`: install the driver first exactly when it does not verify, then the toolkit
     * and the post-install actions, and reboot. Every run that does not panic ends in a reboot.
     */
    method InstallCuda(provider: App.CloudProvider, version: Cuda.CudaVersion) returns (ending: Ending)
      modifies this
      ensures ending == InstallCudaEffect(old(sys), provider, version).ending
      ensures sys == InstallCudaEffect(old(sys), provider, version).after
      ensures log == old(log) + InstallCudaEffect(old(sys), provider, version).commands
    {
      var config := Cuda.NewConfig(version);
      var verified := VerifyDriver(false);
      if !verified.value {
        var driver := InstallDriver(provider, version);
        ghost var driverLog := InstallDriverEffect(old(sys), provider, version).commands;
        AppendAssoc(old(log), VerifyLog(old(sys)), driverLog);
        match driver
        case Rebooted => return Rebooted;
        case Panicked => return Panicked;
        case Returned(result) =>
          if result.Failure? {
            return Panicked;
          }
        ghost var before := sys;
        ending := InstallToolkit(config);
        AppendAssoc4(old(log), VerifyLog(old(sys)), driverLog, ToolkitEffect(before, config).commands);
        return;
      }
      ending := InstallToolkit(config);
      AppendAssoc(old(log), VerifyLog(old(sys)), ToolkitEffect(old(sys), config).commands);
    }
  }
}
