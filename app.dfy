/**
 * The command-line front of src/main.rs that the GPU workflow depends on: the cloud provider,
 * the kernel flavour suffix it selects, and the exit code of the driver-verification command.
 */
module App {
  import opened Wrappers
  import opened Text
  import Runner

  datatype CloudProvider = Aws | Gcp | Azure

  /** The provider chosen when none is given on the command line. */
  const DefaultProvider: CloudProvider := Gcp

  /** The kernel flavour suffix of the provider's Debian/Ubuntu kernel packages. */
  function KernelSuffix(provider: CloudProvider): (suffix: string)
    ensures |suffix| > 1 && suffix[0] == '-'
    ensures IsToken(suffix) && '{' !in suffix
  {
    match provider
    case Aws => "-aws"
    case Gcp => "-cloud-amd64"
    case Azure => "-azure"
  }

  /** Distinct providers have distinct suffixes, so a suffix names its provider. */
  lemma SuffixIdentifiesProvider(p: CloudProvider, q: CloudProvider)
    requires KernelSuffix(p) == KernelSuffix(q)
    ensures p == q
  {
    match p
    case Aws => assert KernelSuffix(q)[1] == 'a' && |KernelSuffix(q)| == 4;
    case Gcp => assert |KernelSuffix(q)| == 12;
    case Azure => assert |KernelSuffix(q)| == 6;
  }

  lemma DefaultSuffix()
    ensures KernelSuffix(DefaultProvider) == "-cloud-amd64"
  {
  }

  /** `cuda verify-driver`: exit code 0 when the driver verifies, 1 when it does not, and 1 as
      well when verification itself fails, since `main` then returns the error. */
  function VerifyDriverExitCode(verified: Result<bool, Runner.IoError>): (code: int)
    ensures code == 0 || code == 1
    ensures code == 0 <==> verified == Success(true)
  {
    match verified
    case Success(ok) => if ok then 0 else 1
    case Failure(_) => 1
  }
}
