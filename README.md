# ignite: the CUDA driver and toolkit installer, modelled in Dafny

`ignite` is a command-line tool that prepares a Debian cloud VM (AWS, GCP or Azure) for GPU work.
Its `cuda` commands:

- bring the kernel up to the newest patch of the running release line, and reboot when that is needed;
- download NVIDIA's CUDA runfile, check its md5 sum, and install the driver from it;
- hold the kernel packages with `apt-mark`, so that an upgrade cannot break the driver;
- install the toolkit and put its folders on `PATH` and `LD_LIBRARY_PATH`, both in the environment and in a
  profile fragment;
- set up the persistence daemon and reboot;
- verify the driver with `nvidia-smi`, or uninstall it again.

This project models that core and proves properties of it. It has these modules:

- `Wrappers` holds `Option` and `Result`.
- `Text` models the Rust `str` operations the tool relies on: `split_whitespace`, `split(char)`, `lines`,
  `trim`, `find` and `contains`, `replace`, `parse::<usize>` and `usize::to_string`.
- `Runner` is `run`, the retrying command runner of `src/utils.rs`. An attempt's outcome is a parameter
  rather than a process.
- `Fetch` has the pure parts of `download_file`: the file name taken from a URL, and the checksum read from
  `md5sum` output.
- `Kernel` has:
  - `parse_kernel_package`;
  - the choice of the newest kernel of a release line;
  - the `{major}.{minor}.{patch}-{micro}` version template and how it is filled by `str::replace`;
  - the parse of the running release into major and minor.
- `Cuda` has:
  - `CudaVersion` and its display;
  - `CudaConfig::new`;
  - the `nvidia-smi -L` device test;
  - the `PATH` and `LD_LIBRARY_PATH` values and the profile fragment.
- `App` has `CloudProvider::kernel_suffix`, the default provider, and the exit code of `cuda verify-driver`.
- `Host` is the machine, a class whose state is updated in place. Its state is:
  - a `System` value: files, kernel release, package index, held packages, `nvidia-smi` state,
    environment, profile fragment, and the commands that fail;
  - the log of the commands issued.

  Each workflow function of `src/install_cuda.rs` and `src/utils.rs` is a method of `Host`. Each is
  proved against a plan function or against a postcondition on the new state and the log.

## Model

| member | source | states |
|---|---|---|
| Runner.CommandLine | src/utils.rs:22-24 | the program and its arguments are whitespace-free, non-empty tokens |
| Runner.CommandLineOfTokens | src/utils.rs:22-24 | a command line joined from tokens with spaces splits back into exactly that program and those arguments |
| Runner.Settle | src/utils.rs:26-68 | a spawn failure is an OS error; a finished command fails exactly when it is checked and its status is not success, and that failure is a nonzero-exit error; success carries status, stdout and stderr |
| Runner.Run | src/utils.rs:6-69 | makes between 1 and retries+1 attempts; every attempt before the last finished unsuccessfully; it stops before the retry budget only on success or a spawn failure; the result is the last attempt settled |
| App.KernelSuffix | src/main.rs:70-77 | every provider's suffix starts with '-', has more than one character, and is a single token without '{' |
| App.SuffixIdentifiesProvider | src/main.rs:70-77 | different providers have different kernel suffixes |
| App.DefaultSuffix | src/main.rs:88 | the default provider, gcp, selects the "-cloud-amd64" kernels |
| App.VerifyDriverExitCode | src/main.rs:32-38 | the exit code is 0 or 1, and it is 0 exactly when verification succeeded with `true` |
| Text.IndexOf | src/install_cuda.rs:245-247 | the first position of a character, or None exactly when the character is absent |
| Text.Find | src/utils.rs:122-124 | the first position where the pattern occurs, or None when it occurs nowhere |
| Text.ContainsInfix | src/utils.rs:113 | a string contains every infix |
| Text.NotContainsMissingChar | src/utils.rs:113 | a pattern holding a character that the string lacks is not contained |
| Text.Replace | src/install_cuda.rs:268-275 | a string without the pattern's first character comes back unchanged, and a replacement as wide as the pattern keeps the length |
| Text.ReplaceSkipFree | src/install_cuda.rs:268-272 | a prefix without the pattern's first character passes through `replace` unchanged |
| Text.ReplaceHit | src/install_cuda.rs:268-272 | an occurrence at the front is replaced and the rest is processed after it |
| Text.ReplaceSkipOther | src/install_cuda.rs:268-272 | a different placeholder of the same width passes through unchanged |
| Text.SplitOn | src/utils.rs:129 | the pieces of a split never contain the separator, and there is at least one |
| Text.SplitOnCons | src/utils.rs:129 | splitting at the first separator gives the part before it and then the split of the rest |
| Text.SplitOnJoin | src/utils.rs:129-135 | joining separator-free pieces and splitting again gives back the pieces |
| Text.JoinSplitOn | src/utils.rs:129-135 | joining the pieces of a split gives back the string |
| Text.TokenEnd | src/utils.rs:86 | the first token ends at the first whitespace character |
| Text.SplitWhitespace | src/utils.rs:22-24 | every token is non-empty and whitespace-free |
| Text.FirstToken | src/install_cuda.rs:259 | the first token holds no whitespace |
| Text.SplitWhitespaceCons | src/utils.rs:22-24 | a token followed by whitespace splits off as the first token |
| Text.SplitWhitespaceJoin | src/utils.rs:22-24 | tokens joined with spaces split back into the same tokens |
| Text.Lines | src/install_cuda.rs:258 | no line holds a newline |
| Text.LinesCons | src/install_cuda.rs:258 | a line ended by '\n' is the first line, followed by the lines of the rest |
| Text.TrimStart | src/utils.rs:104 | drops exactly the leading whitespace |
| Text.TrimEnd | src/utils.rs:104 | drops exactly the trailing whitespace |
| Text.Trim | src/utils.rs:104 | the result neither starts nor ends with whitespace |
| Text.TrimSurrounded | src/utils.rs:104 | trimming recovers a string from any surrounding whitespace |
| Text.ParseUsize | src/utils.rs:140-143 | a parsed value fits in a usize; the empty string and a lone '+' are rejected |
| Text.NatToString | src/install_cuda.rs:270-271 | non-empty decimal digits whose value is the number, with no leading zero except for 0 |
| Text.ParseNatToString | src/utils.rs:140-143 | parsing the decimal spelling of a usize gives the number back |
| Text.ParseRejectsSeparator | src/utils.rs:140-143 | a field that still holds '-' or '.' does not parse |
| Text.NatToStringPlain | src/install_cuda.rs:270-271 | a number's spelling holds no '-', '.', '{' or whitespace |
| Fetch.FileName | src/utils.rs:72-73 | the file name has no '/' and ends the URL; it follows the last '/' or, without one, is the whole URL |
| Fetch.JoinEndsWithLast | src/utils.rs:72 | the last piece of a split ends the string, after a separator when there are several pieces |
| Fetch.ReportedChecksum | src/utils.rs:79-86 | the checksum read is the first token of md5sum's output, with no whitespace |
| Fetch.ReportedChecksumOfLine | src/utils.rs:79-86 | for md5sum's output line "digest  path\n" the checksum read is the digest |
| Cuda.VersionText | src/install_cuda.rs:29-38 | each version displays as "12." followed by one digit, with no ':', '/' or newline |
| Cuda.VersionTextInjective | src/install_cuda.rs:29-38 | different versions display differently |
| Cuda.DriverVersion | src/install_cuda.rs:50-85 | the bundled driver version is a single token with no '/' |
| Cuda.ToolkitChecksum | src/install_cuda.rs:50-85 | every md5 checksum has 32 characters |
| Cuda.InstallerName | src/install_cuda.rs:50-85 | the runfile name has no '/' and ends with "_<driver>_linux.run" |
| Cuda.InstallerDirectory | src/install_cuda.rs:50-85 | the download folder is under NVIDIA's download root |
| Cuda.ReleaseRoot | src/install_cuda.rs:50-85 | the install root is "/usr/local/cuda-" followed by the version's display text ("12.x"), with no ':' or newline |
| Cuda.NewConfig | src/install_cuda.rs:50-85 | the configuration keeps the version and its driver; the URL is under the download root; the bin folder is the release root + "/bin" and the lib folder the release root + "/lib64", with no ':' or newline; the checksum has 32 characters |
| Cuda.FoldersIdentifyRelease | src/install_cuda.rs:50-85 | two versions with the same bin folder or the same lib folder are the same version |
| Cuda.InstallerFile | src/install_cuda.rs:322-328 | the file that `download_file` saves for the toolkit URL is the runfile's name, which ends with the driver version and "_linux.run" |
| Cuda.FileNameAfterSlash | src/utils.rs:72 | the file name of "dir/name" is name when name has no '/' |
| Cuda.SplitOnLast | src/utils.rs:72 | the last piece of a split is what follows the last separator |
| Cuda.ListingShowsDevice | src/install_cuda.rs:180 | the listing shows a device exactly when `nvidia-smi -L` succeeded and its output contains "UUID" |
| Cuda.ListingShowsDeviceExamples | src/install_cuda.rs:169-187 | a successful listing that mentions "UUID" shows a device, and a failed listing never does |
| Cuda.PrependedPath | src/install_cuda.rs:364-371 | the new PATH's entries are the bin folder followed by the old entries; an unset PATH counts as "" |
| Cuda.PrependedLibraryPath | src/install_cuda.rs:372-380 | the new LD_LIBRARY_PATH's entries are the lib folder followed by the old entries, or the lib folder alone when it was unset |
| Cuda.UnsetPathGainsEmptyEntry | src/install_cuda.rs:364-380 | with PATH unset, the new PATH ends in an empty entry; with LD_LIBRARY_PATH unset, the new value is the lib folder alone |
| Cuda.ProfileText | src/install_cuda.rs:383-397 | the fragment is the header comment, the PATH export and the LD_LIBRARY_PATH export, each followed by a newline; Cuda.ProfileLines states its lines |
| Cuda.ProfileLines | src/install_cuda.rs:383-397 | the profile fragment consists of exactly three lines: the header comment, the PATH export and the LD_LIBRARY_PATH export |
| Cuda.JoinPath | src/install_cuda.rs:149-152 | a joined path starts with the folder and ends with the name |
| Kernel.VersionPart | src/utils.rs:118-126 | None exactly when the suffix does not occur after the prefix; otherwise the package is prefix, version part, suffix |
| Kernel.VersionPartOf | src/utils.rs:113-126 | for prefix + v + suffix the version part is v |
| Kernel.VersionFields | src/utils.rs:129-143 | the fields fit in a usize; without both '-' and '.' there are none |
| Kernel.VersionFieldsOf | src/utils.rs:129-143 | "major.minor.patch-micro" gives (patch, micro) |
| Kernel.VersionFieldsSound | src/utils.rs:129-143 | a version part that parses is "a.b.c[.more]-m", where c spells the patch and m the micro |
| Kernel.ParseKernelPackage | src/utils.rs:108-144 | None when the prefix or the suffix is missing; parsed numbers fit in a usize |
| Kernel.ParseWellFormed | src/utils.rs:108-144 | prefix + "major.minor.patch-micro" + suffix parses to (patch, micro) |
| Kernel.ParseSound | src/utils.rs:108-144 | every accepted package is prefix + "a.b.c[.more]-m" + suffix, with the returned numbers spelled by c and m |
| Kernel.DocExample | src/utils.rs:107-144 | "linux-image-5.15.0-1015-aws" with prefix "linux-image-" and suffix "-aws" parses to (0, 1015) |
| Kernel.ParseNeedsHyphen | src/utils.rs:129-132 | a version part without '-' is rejected |
| Kernel.Newest | src/install_cuda.rs:255-266 | no parsed candidate is newer than the selection, and the selection is one of them or (0, 0) |
| Kernel.NewestAppend | src/install_cuda.rs:260-265 | one more candidate replaces the selection exactly when it is newer |
| Kernel.NewestOfNothing | src/install_cuda.rs:255-256 | with no parsed candidate, the selection is (0, 0) |
| Kernel.NewestIsMaximum | src/install_cuda.rs:255-266 | the selection is a maximum of the candidates and is one of them |
| Kernel.IndexNames | src/install_cuda.rs:258-259 | one package name per line of the search output |
| Kernel.AsWrittenCandidates | src/install_cuda.rs:253-260 | one parse result per name, with the caller's "linux-image-{major}.{minor}" prefix |
| Kernel.AsWrittenRejectsRealName | src/install_cuda.rs:253 | with that prefix, a real package "linux-image-major.minor.patch-micro<suffix>" is never parsed |
| Kernel.DotPatchFields | src/utils.rs:135-138 | ".patch-micro" has fewer than three '.'-fields and is rejected |
| Kernel.AsWrittenSelectsZero | src/install_cuda.rs:253-266 | on an index of real package names, the loop as written always selects (0, 0) |
| Kernel.CandidateVersion | src/install_cuda.rs:253-260 | a candidate belongs to the running line and is parsed with the "linux-image-" prefix |
| Kernel.CandidateVersionRealName | src/install_cuda.rs:253-260 | a real package of the line yields its own (patch, micro) |
| Kernel.Candidates | src/install_cuda.rs:258-260 | one candidate result per name |
| Kernel.CandidatesStep | src/install_cuda.rs:258-266 | the candidates of one more line are the old candidates followed by that line's |
| Kernel.IntendedSelectsNewest | src/install_cuda.rs:253-266 | with the corrected rule, no real package of the line is newer than the selection, and the selection is one of the listed packages |
| Kernel.SelectNewest | src/install_cuda.rs:250-266 | the loop over the search output selects the newest candidate of the running line |
| Kernel.ReplaceFills | src/install_cuda.rs:268-272 | `replace` of a placeholder on a rendered well-formed template is the rendering of the template with that placeholder filled in |
| Kernel.RenderVersionTemplate | src/install_cuda.rs:239 | the unfilled template renders as the version format; the filled one renders as the version string |
| Kernel.FillVersionTemplate | src/install_cuda.rs:268-272 | each `replace` fills exactly the next of the four fields |
| Kernel.WantedVersion | src/install_cuda.rs:268-272 | when no value holds a '{', the four `replace` calls give "major.minor.patch-micro" + suffix: the installed-kernel probe followed by the suffix |
| Kernel.RunningPin | src/install_cuda.rs:278-280 | the installed-kernel probe belongs to its release line: when major and minor hold no '.', parsing the probe as a release gives back that major and minor |
| Kernel.ImagePackage | src/install_cuda.rs:274 | the image package is "linux-image-" + version |
| Kernel.HeadersPackage | src/install_cuda.rs:275 | the headers package is "linux-headers-" + version |
| Kernel.FillOne | src/install_cuda.rs:274-275 | replacing "{version}" at the end of a template gives the lead + version |
| Kernel.MajorMinor | src/install_cuda.rs:244-247 | None exactly when the release has no '.'; otherwise the first two '.'-fields, which start the release |
| Kernel.FirstTwoFields | src/install_cuda.rs:245-247 | the release has a second '.'-field exactly when it holds a '.' |
| Kernel.MajorMinorOf | src/install_cuda.rs:244-247 | "major.minor.rest" gives (major, minor) |
| Host.HoldNames | src/utils.rs:150-159 | the held packages are the running kernel's image and headers and the two cloud-amd64 meta packages; Host.HoldNamesTokens and Host.HoldCommandLine state their shape |
| Host.HoldNamesTokens | src/utils.rs:150-153 | the held package names are single tokens |
| Host.HoldCommandLine | src/utils.rs:150-159 | the `apt-mark hold` line splits into apt-mark, hold, the running kernel's image and headers packages, and the two cloud-amd64 meta packages |
| Host.InstallCommand | src/install_cuda.rs:300-310 | the `apt-get install -y` line for the wanted image and headers; Host.InstallCommandLine states its tokens |
| Host.InstallCommandLine | src/install_cuda.rs:300-310 | the install line splits into apt-get install -y and the named packages, the wanted image and headers among them |
| Host.Healthy | src/install_cuda.rs:169-187 | the driver verifies exactly when `which nvidia-smi` succeeds and `nvidia-smi -L` succeeds with a listing that contains "UUID" |
| Host.Target | src/install_cuda.rs:244-275 | a target kernel exists exactly when the trimmed release holds a '.' |
| Host.InstallPlan | src/install_cuda.rs:299-319 | the install command runs alone; the gate is Ready exactly when the kernel check held and the install succeeded, RebootRequired exactly when it did not hold and the install succeeded, and a panic otherwise |
| Host.CheckPlan | src/install_cuda.rs:277-319 | the check starts with the second `uname -r` |
| Host.SearchPlan | src/install_cuda.rs:249-319 | the search step starts with `apt-cache search linux-image` |
| Host.ProbePlan | src/install_cuda.rs:244-319 | the step after the update starts with `uname -r`; when it does not panic, uname succeeded and the release holds a '.' |
| Host.DependencyPlan | src/install_cuda.rs:242-319 | every run of the step starts with `apt-get update`; when it does not panic, the update succeeded and the release holds a '.' |
| Host.CheckGate | src/install_cuda.rs:278-319 | when every command succeeds: with kernel and headers in place, two probes and no install; otherwise one install command, no panic, and a reboot request exactly when the kernel is not the wanted one |
| Host.CheckGateInstalls | src/install_cuda.rs:294-319 | when every command succeeds and the kernel or the headers are missing, the commands are uname, the dpkg probe and the install, and the gate is Ready exactly when the kernel matches |
| Host.DependencySteps | src/install_cuda.rs:242-319 | when every command succeeds, the step is update, uname, the search, then the gate for the newest kernel of the line |
| Host.DependencyPanics | src/install_cuda.rs:236-320 | the step panics only on a failing command or a release without a '.' |
| Host.RebootMeansStaleKernel | src/install_cuda.rs:277-319 | whatever fails, the step asks for a reboot only when the release holds a '.' and the running kernel is not the target kernel |
| Host.ProbeReboot | src/install_cuda.rs:244-319 | a reboot request after `uname -r` is the gate's reboot request for the target kernel |
| Host.CheckReboot | src/install_cuda.rs:313-316 | the gate asks for a reboot only when the running kernel is not the wanted one |
| Host.KernelProbeIsSubstring | src/install_cuda.rs:278-280 | a note on the probe, not a defect claim: a running kernel whose micro number only starts with the wanted digits also passes the installed-kernel probe |
| Host.FilesAfterDownload | src/utils.rs:71-77 | a download never changes a file already on disk, and adds at most the file named by the URL |
| Host.DownloadLog | src/utils.rs:74-86 | one or two commands; the last is `md5sum` exactly when the file is on disk afterwards |
| Host.DownloadResult | src/utils.rs:71-100 | success exactly when the file is on disk afterwards, `md5sum` succeeds and the reported checksum matches; the value is then the URL's file name |
| Host.DownloadAgain | src/utils.rs:74-79 | downloading again a file that was fetched and checked succeeds the same way, with `md5sum` alone and no change to the files |
| Host.MarkEffectBounds | src/utils.rs:146-180 | holding or releasing changes only the held set; it succeeds exactly when uname and apt-mark succeed, and then adds or removes exactly the four packages; the first command is `uname -r` |
| Host.PersistencedEffect | src/install_cuda.rs:330-360 | the machine is unchanged; nothing runs unless both the daemon binary and its archive exist; a failure is the failure of the last command issued |
| Host.PostInstallEffect | src/install_cuda.rs:362-399 | PATH gets the bin folder prepended and LD_LIBRARY_PATH the lib folder; every other variable keeps its value; the profile fragment is written; nothing else changes |
| Host.InstallDriverEffect | src/install_cuda.rs:88-123 | every run of `install_driver` starts with `apt-get update` |
| Host.DriverEffectBounds | src/install_cuda.rs:104-122 | only the files, nvidia-smi and the held set change; nvidia-smi changes only to what the driver installs; the held set grows only by the kernel hold and only once the driver verifies; on success nvidia-smi is the installed one and the kernel is held exactly when the driver verifies |
| Host.DriverEffectSucceeds | src/install_cuda.rs:104-122 | with no failing command and a good download, the driver runfile runs and the step returns `Ok(())` whether or not the driver then verifies |
| Host.InstallDriverGate | src/install_cuda.rs:88-123 | `install_driver` reboots exactly when the dependencies ask for it and `reboot now` works; it returns exactly when the dependencies are ready, and then returns what the driver step returns; a reboot leaves the machine unchanged and is the last command |
| Host.InstallDriverSucceeds | src/install_cuda.rs:88-123 | with no failing command, a release holding a '.' and a good download, it reboots exactly when the running kernel is not the target; otherwise it runs the driver runfile and returns `Ok(())` |
| Host.UninstallEffectBounds | src/install_cuda.rs:125-167 | nothing beyond the probe happens when the driver does not verify; only files, nvidia-smi and the held set change; nvidia-smi can only disappear; the hold is released only once nvidia-smi is gone, and never on a failure |
| Host.UninstallEffectSucceeds | src/install_cuda.rs:125-167 | with no failing command, a verified driver and a good download, the commands are the probe, the download, the extract, the uninstaller at the joined path, `uname -r` and the unhold; nvidia-smi is gone and the hold released |
| Host.RemovalSucceeds | src/install_cuda.rs:133-166 | with no failing command and a good download, the removal extracts the runfile, runs the uninstaller and releases the hold, in that order |
| Host.PostToolkitBounds | src/install_cuda.rs:193-197 | the post-install actions and the reboot never return, change only the environment and the profile, and a reboot is the last command |
| Host.ToolkitEffectBounds | src/install_cuda.rs:214-233 | the toolkit step never returns and starts with the download; a reboot comes last, with the toolkit installed, the environment and profile written, and nvidia-smi and the held set untouched |
| Host.ToolkitEffectSucceeds | src/install_cuda.rs:214-233 | with no failing command and a good download, the toolkit runfile runs, the toolkit is installed and the machine reboots |
| Host.ToolkitTail | src/install_cuda.rs:219-233 | after a successful toolkit run, the rest never returns, keeps the earlier commands as a prefix, and a reboot comes last with the toolkit installed and the environment and profile written |
| Host.InstallCudaEffectBounds | src/install_cuda.rs:189-234 | `install_cuda` never returns; without a verified driver it starts like `install_driver`; with one it goes straight to the toolkit download, and a reboot leaves nvidia-smi and the held set untouched |
| Host.InstallCudaWithDriver | src/install_cuda.rs:206-233 | with a verified driver, `install_cuda` is the probe followed by the toolkit step |
| Host.InstallCudaWithoutDriver | src/install_cuda.rs:206-213 | without a verified driver, `install_cuda` never returns and its commands start with the probe and `apt-get update` |
| Host.InstallCudaReboots | src/install_cuda.rs:189-234 | with no failing command, a release holding a '.' and a good download, `install_cuda` always ends in `reboot now`; the toolkit is installed unless the reboot is the kernel switch, which leaves the machine unchanged |
| Host.InstallCudaAfterDriver | src/install_cuda.rs:206-233 | after `install_driver` returned `Ok(())`, the toolkit download finds the same runfile, the toolkit is installed and the machine reboots |
| Host.Host.Exec | src/utils.rs:6-69 | one attempt; the command is logged; the result is that attempt settled |
| Host.Host.Query | src/install_cuda.rs:283-292 | an unchecked probe succeeds exactly when its condition holds and the command does not fail |
| Host.Host.GetKernelVersion | src/utils.rs:102-105 | logs `uname -r`; the result is the trimmed release, or the command's error |
| Host.Host.DownloadFile | src/utils.rs:71-100 | skips curl when the file exists; logs the curl and md5 commands it runs; on success the file is present and its md5 matches; a mismatch names the file, which stays on disk; no file is removed |
| Host.Host.LockKernelUpdates | src/utils.rs:146-162 | succeeds exactly when uname and the hold succeed; the running kernel's image and headers and the two cloud-amd64 meta packages are then added to the held set; nothing changes on failure |
| Host.Host.UnlockKernelUpdates | src/utils.rs:164-180 | succeeds exactly when uname and the unhold succeed; those packages are then removed from the held set; nothing changes on failure |
| Host.Host.Reboot | src/utils.rs:182-188 | logs `reboot now`; ends in a reboot, or in a panic when that command fails |
| Host.Host.VerifyDriver | src/install_cuda.rs:169-187 | nothing changes; the result is whether nvidia-smi is found and lists a device |
| Host.Host.VerifyDriverCommand | src/main.rs:32-38 | the exit code is 0 exactly when the driver verifies, and 1 otherwise |
| Host.Host.InstallKernel | src/install_cuda.rs:299-319 | the gate and the log are those of the install plan |
| Host.Host.CheckKernel | src/install_cuda.rs:277-319 | the gate and the log are those of the check plan |
| Host.Host.SearchKernel | src/install_cuda.rs:249-319 | the gate and the log are those of the search plan |
| Host.Host.ProbeKernel | src/install_cuda.rs:244-319 | the gate and the log are those of the probe plan |
| Host.Host.InstallDependencies | src/install_cuda.rs:236-320 | the machine is unchanged, and the gate and the log are those of the dependency plan |
| Host.Host.ConfigurePersistenced | src/install_cuda.rs:330-360 | the result, machine and log are those of Host.PersistencedEffect |
| Host.Host.PostInstall | src/install_cuda.rs:362-401 | the result, machine and log are those of Host.PostInstallEffect |
| Host.Host.RunDriverInstaller | src/install_cuda.rs:104-122 | the result, machine and log are those of Host.DriverEffect, whose properties Host.DriverEffectBounds and Host.DriverEffectSucceeds state |
| Host.Host.InstallDriver | src/install_cuda.rs:88-123 | the ending, machine and log are those of Host.InstallDriverEffect (Host.InstallDriverGate, Host.InstallDriverSucceeds) |
| Host.Host.RemoveDriver | src/install_cuda.rs:133-166 | the result, machine and log are those of Host.RemovalEffect (Host.RemovalSucceeds) |
| Host.Host.UninstallDriver | src/install_cuda.rs:125-167 | the result, machine and log are those of Host.UninstallEffect (Host.UninstallEffectBounds, Host.UninstallEffectSucceeds) |
| Host.Host.FinishToolkit | src/install_cuda.rs:193-197 | the ending, machine and log are those of Host.PostToolkitEffect (Host.PostToolkitBounds) |
| Host.Host.InstallToolkit | src/install_cuda.rs:214-233 | the ending, machine and log are those of Host.ToolkitEffect (Host.ToolkitEffectBounds, Host.ToolkitEffectSucceeds) |
| Host.Host.InstallCuda | src/install_cuda.rs:189-234 | the ending, machine and log are those of Host.InstallCudaEffect (Host.InstallCudaEffectBounds, Host.InstallCudaReboots) |

## Left out

- Console output (`println!`, the verbose flag, the silent flag) is not modelled. Neither is the stdin input
  of `run`, which is a parameter that no core call site sets.
- Output decoding: `String::from_utf8_lossy` is treated as the identity on `string`.
- The md5 computation itself is not modelled. A file's content is represented by the line `md5sum` prints
  for it; `Fetch.ReportedChecksum` reads that line.
- Host commands in `Host` make one attempt, because every core call site passes `retries = 0`. Spawn failures
  of host commands are not modelled in `Host`; they are modelled in `Runner.Run` and `Runner.Settle`.
- `dpkg -l | grep <headers>` is an opaque probe, answered from the set of headers the machine reports.
- `apt-get update` and `apt-get install` do not change the modelled state. The new kernel only takes
  effect after the reboot, which ends the model's run.
- The temporary directory is a parameter. Errors from `TempDir::new` are not modelled, neither in
  `uninstall_driver` (src/install_cuda.rs:133) nor in `configure_persistanced_service`
  (src/install_cuda.rs:339).
- The file copy and the change of working directory in `configure_persistanced_service`
  (src/install_cuda.rs:339-358) are not modelled: the model checks only that the daemon binary and its
  archive exist, then records the commands.
- Errors from `File::create` and `write_all` of the profile fragment are not modelled; the write always
  succeeds.
- `std::process::exit` and the process ending at `reboot` are results, not process terminations: an `Ending`
  or an exit code.
- Argument parsing with clap, `is_root`, and the other commands are not part of this model. The other
  commands are `install_all`, rust, nvim and clang. `install_cuda.py` is not part of this model either.
- Host.Host.InstallDependencies: selects the newest kernel with the corrected candidate rule
  (`Kernel.Candidates`), not with the rule as written (see Findings). The rule as written is modelled by
  `Kernel.AsWrittenCandidates`.
- Panics (`unwrap` on a failed command, on a release without a '.', or on a failed download in
  `install_cuda_inner`) are the `Panicked` ending or gate; the panic message is not modelled.
- The model follows these code facts:
  - `download_file` runs `md5sum` even when the file was already present (src/utils.rs:74-79);
  - `install_cuda_inner` does not look for `nvcc` before installing the toolkit (src/install_cuda.rs:202-234);
  - `install_cuda` always ends in `reboot` (src/install_cuda.rs:193-197, 233).
- Runner.Run: does not model the panic of `parts.next().unwrap()` on an empty or all-whitespace command
  (src/utils.rs:23); every core command is a non-empty literal.
- Text.Replace: requires a non-empty pattern; the source calls `replace` only with the "{major}", "{minor}",
  "{patch}" and "{micro}" placeholders.
- Kernel.SelectNewest: uses the corrected candidate rule (`Kernel.Candidates`), not the rule as written
  (see Findings).
- Host.Host.SearchKernel: selects with the corrected candidate rule, not the rule as written (see Findings).
- Host.Host.ProbeKernel: the target it probes comes from the corrected candidate rule (see Findings).
- Host.DependencySteps: follows the corrected candidate rule (see Findings).
- Host.Target: the target kernel comes from the corrected candidate rule (see Findings).
- Host.SearchPlan: uses the corrected candidate rule (see Findings).
- Host.ProbePlan: uses the corrected candidate rule (see Findings).
- Host.DependencyPlan: uses the corrected candidate rule (see Findings).
- Host.RebootMeansStaleKernel: is about the target of the corrected candidate rule (see Findings).

## Findings

| source | as written | input that shows it | evidently intended | confidence | as-written member | corrected member |
|---|---|---|---|---|---|---|
| src/install_cuda.rs:253 | the prefix handed to `parse_kernel_package` is "linux-image-{major}.{minor}", so the version part left for a real package is ".patch-micro"; its '.'-split has fewer than three fields (src/utils.rs:135-138), every package is rejected, and the selection stays (0, 0) | release "5.15.0-1015-aws" with package "linux-image-5.15.0-1015-aws": prefix "linux-image-5.15" leaves ".0-1015", which is rejected | select the newest (patch, micro) among the packages of the running major.minor line | not executed | Kernel.AsWrittenSelectsZero | Kernel.IntendedSelectsNewest |
