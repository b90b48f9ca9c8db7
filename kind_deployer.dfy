/** The Build phase of the kubetest2 kind deployer
    (kubetest2-kind/deployer/build.go): it assembles the command line of
    `kind build node-image`, runs kind, and on success stores the common
    Kubernetes binaries for later phases. */
module KindDeployer {

  /** Name kind gives the node image it builds when kubetest2 asked for a
      build; the deployer passes it as --image when no NodeImage is set. */
  const KindDefaultBuiltImageName: string := "kindest/node:latest"

  datatype Option<T> = None | Some(value: T)

  /** The error result of a Go call: nil, or an error with its message. */
  datatype Outcome = Pass | Fail(error: string)

  /** The externally visible steps Build takes, in order. */
  datatype Invocation =
    | Exec(command: string, args: seq<string>)
    | StoreCommonBinaries(kubeRoot: string, runDir: string)

  /** The generic options the deployer receives: whether kubetest2 builds
      Kubernetes in this run (ShouldBuild) and the run's directory (RunDir). */
  datatype CommonOptions = CommonOptions(shouldBuild: bool, runDir: string)

  // ---------------------------------------------------------------------------
  // Specification of the argument list
  // ---------------------------------------------------------------------------

  /** A flag and its value, or nothing when the value is empty. */
  function OptionalFlag(flag: string, value: string): (pair: seq<string>)
  {
    if value == "" then [] else [flag, value]
  }

  /** The value of --image: an explicit node image wins; otherwise kind's
      default built image name when kubetest2 builds; otherwise no flag. */
  function ImageFlagValue(nodeImage: string, shouldBuild: bool): (image: Option<string>)
    ensures nodeImage != "" ==> image == Some(nodeImage)
    ensures nodeImage == "" && shouldBuild ==> image == Some(KindDefaultBuiltImageName)
    ensures image == None <==> nodeImage == "" && !shouldBuild
    ensures image.Some? ==> image.value != ""
  {
    if nodeImage != "" then Some(nodeImage)
    else if shouldBuild then Some(KindDefaultBuiltImageName)
    else None
  }

  /** The --image pair, if ImageFlagValue gives a value. */
  function ImageFlag(nodeImage: string, shouldBuild: bool): (pair: seq<string>)
  {
    match ImageFlagValue(nodeImage, shouldBuild)
    case Some(image) => ["--image", image]
    case None => []
  }

  /** The argument list Build passes to kind. */
  ghost function BuildArgs(buildType: string, kubeRoot: string, nodeImage: string, shouldBuild: bool): (args: seq<string>)
    ensures |args| >= 2 && args[..2] == ["build", "node-image"]
    ensures |args| % 2 == 0 && |args| <= 8
  {
    ["build", "node-image"] + BuildFlags(buildType, kubeRoot, nodeImage, shouldBuild)
  }

  /** The flags after "build node-image", as a list of flag/value pairs in the
      order type, kube-root, image. */
  ghost function BuildFlags(buildType: string, kubeRoot: string, nodeImage: string, shouldBuild: bool): seq<string>
  {
    OptionalFlag("--type", buildType)
    + (OptionalFlag("--kube-root", kubeRoot) + ImageFlag(nodeImage, shouldBuild))
  }

  // ---------------------------------------------------------------------------
  // Reading the flags back
  // ---------------------------------------------------------------------------

  /** The flag names of a list of flag/value pairs, in order. */
  function FlagNames(flags: seq<string>): (names: seq<string>)
    ensures |names| == |flags| / 2
    decreases |flags|
  {
    if |flags| < 2 then [] else [flags[0]] + FlagNames(flags[2..])
  }

  /** The value given to the first occurrence of flag in a list of
      flag/value pairs, if any. Values are skipped, so a value that happens to
      look like a flag is never taken for one. */
  function LookupFlag(flags: seq<string>, flag: string): (value: Option<string>)
    decreases |flags|
  {
    if |flags| < 2 then None
    else if flags[0] == flag then Some(flags[1])
    else LookupFlag(flags[2..], flag)
  }

  /** Count of the occurrences of x in s. */
  function Occurrences(s: seq<string>, x: string): (n: nat)
    ensures n <= |s|
    ensures n == 0 <==> x !in s
  {
    if s == [] then 0 else (if s[0] == x then 1 else 0) + Occurrences(s[1..], x)
  }

  /** Reading an optional pair followed by more pairs. */
  lemma {:induction false} OptionalFlagThen(flag: string, value: string, rest: seq<string>, name: string)
    ensures FlagNames(OptionalFlag(flag, value) + rest)
         == (if value != "" then [flag] else []) + FlagNames(rest)
    ensures LookupFlag(OptionalFlag(flag, value) + rest, name)
         == if value != "" && flag == name then Some(value) else LookupFlag(rest, name)
  {
    if value == "" {
      assert OptionalFlag(flag, value) + rest == rest;
    } else {
      assert (OptionalFlag(flag, value) + rest)[2..] == rest;
    }
  }

  /** Reading the --image pair on its own. */
  lemma {:induction false} ImageFlagReads(nodeImage: string, shouldBuild: bool, name: string)
    ensures FlagNames(ImageFlag(nodeImage, shouldBuild))
         == if ImageFlagValue(nodeImage, shouldBuild).Some? then ["--image"] else []
    ensures LookupFlag(ImageFlag(nodeImage, shouldBuild), name)
         == if name == "--image" then ImageFlagValue(nodeImage, shouldBuild) else None
  {
    var pair := ImageFlag(nodeImage, shouldBuild);
    if pair != [] {
      assert pair[2..] == [];
    }
  }

  /** The flag names present, in the order type, kube-root, image, each only
      when its value is set; the image flag follows ImageFlagValue. */
  ghost function ExpectedFlagNames(buildType: string, kubeRoot: string, nodeImage: string, shouldBuild: bool): seq<string>
  {
    (if buildType != "" then ["--type"] else [])
    + (if kubeRoot != "" then ["--kube-root"] else [])
    + (if ImageFlagValue(nodeImage, shouldBuild).Some? then ["--image"] else [])
  }

  /** Reading the flag value given to name: what Build meant to give it. */
  lemma {:induction false} BuildFlagsLookup(buildType: string, kubeRoot: string, nodeImage: string, shouldBuild: bool, name: string)
    ensures LookupFlag(BuildFlags(buildType, kubeRoot, nodeImage, shouldBuild), name)
         == if name == "--type" && buildType != "" then Some(buildType)
            else if name == "--kube-root" && kubeRoot != "" then Some(kubeRoot)
            else if name == "--image" then ImageFlagValue(nodeImage, shouldBuild)
            else None
  {
    var tail := ImageFlag(nodeImage, shouldBuild);
    ImageFlagReads(nodeImage, shouldBuild, name);
    OptionalFlagThen("--kube-root", kubeRoot, tail, name);
    OptionalFlagThen("--type", buildType, OptionalFlag("--kube-root", kubeRoot) + tail, name);
  }

  /** The flag names, in order: one per pair Build adds. */
  lemma {:induction false} BuildFlagNames(buildType: string, kubeRoot: string, nodeImage: string, shouldBuild: bool)
    ensures FlagNames(BuildFlags(buildType, kubeRoot, nodeImage, shouldBuild))
         == ExpectedFlagNames(buildType, kubeRoot, nodeImage, shouldBuild)
  {
    var tail := ImageFlag(nodeImage, shouldBuild);
    ImageFlagReads(nodeImage, shouldBuild, "--image");
    OptionalFlagThen("--kube-root", kubeRoot, tail, "--image");
    OptionalFlagThen("--type", buildType, OptionalFlag("--kube-root", kubeRoot) + tail, "--image");
  }

  /** Reading the flags back: the names come in the order type, kube-root,
      image, each exactly when Build adds it, and each flag carries exactly the
      value Build meant to give it. */
  lemma {:induction false} BuildFlagsRoundTrip(buildType: string, kubeRoot: string, nodeImage: string, shouldBuild: bool)
    ensures var flags := BuildFlags(buildType, kubeRoot, nodeImage, shouldBuild);
      && FlagNames(flags) == ExpectedFlagNames(buildType, kubeRoot, nodeImage, shouldBuild)
      && LookupFlag(flags, "--type") == (if buildType != "" then Some(buildType) else None)
      && LookupFlag(flags, "--kube-root") == (if kubeRoot != "" then Some(kubeRoot) else None)
      && LookupFlag(flags, "--image") == ImageFlagValue(nodeImage, shouldBuild)
  {
    BuildFlagNames(buildType, kubeRoot, nodeImage, shouldBuild);
    BuildFlagsLookup(buildType, kubeRoot, nodeImage, shouldBuild, "--type");
    BuildFlagsLookup(buildType, kubeRoot, nodeImage, shouldBuild, "--kube-root");
    BuildFlagsLookup(buildType, kubeRoot, nodeImage, shouldBuild, "--image");
  }

  /** The whole list is "build node-image" followed by one pair per flag, so
      its length is 2 + 2 * (number of flags); the image flag occurs at most
      once, and not at all when there is no node image and no build. */
  lemma {:induction false} BuildArgsShape(buildType: string, kubeRoot: string, nodeImage: string, shouldBuild: bool)
    ensures var names := FlagNames(BuildFlags(buildType, kubeRoot, nodeImage, shouldBuild));
      && |BuildArgs(buildType, kubeRoot, nodeImage, shouldBuild)| == 2 + 2 * |names|
      && Occurrences(names, "--image") <= 1
      && (nodeImage == "" && !shouldBuild ==> "--image" !in names)
  {
    BuildFlagsRoundTrip(buildType, kubeRoot, nodeImage, shouldBuild);
    var names := ExpectedFlagNames(buildType, kubeRoot, nodeImage, shouldBuild);
    var head := (if buildType != "" then ["--type"] else []) + (if kubeRoot != "" then ["--kube-root"] else []);
    assert "--image" !in head;
    OccurrencesAppend(head, if ImageFlagValue(nodeImage, shouldBuild).Some? then ["--image"] else [], "--image");
  }

  lemma {:induction false} OccurrencesAppend(s: seq<string>, t: seq<string>, x: string)
    ensures Occurrences(s + t, x) == Occurrences(s, x) + Occurrences(t, x)
    decreases |s|
  {
    if s == [] {
      assert s + t == t;
    } else {
      assert (s + t)[1..] == s[1..] + t;
      OccurrencesAppend(s[1..], t, x);
    }
  }

  // ---------------------------------------------------------------------------
  // The deployer
  // ---------------------------------------------------------------------------

  /** The kind deployer's state that Build reads, and the log of what it has
      asked the outside world to do. */
  class Deployer {
    var BuildType: string
    var KubeRoot: string
    var NodeImage: string
    var commonOptions: CommonOptions
    /** Processes run and binaries stored so far, oldest first. */
    var invocations: seq<Invocation>

    constructor (buildType: string, kubeRoot: string, nodeImage: string, commonOptions: CommonOptions)
      ensures BuildType == buildType && KubeRoot == kubeRoot && NodeImage == nodeImage
      ensures this.commonOptions == commonOptions
      ensures invocations == []
    {
      BuildType := buildType;
      KubeRoot := kubeRoot;
      NodeImage := nodeImage;
      this.commonOptions := commonOptions;
      invocations := [];
    }

    /** The argument list for `kind build node-image`, built flag by flag. */
    method NodeImageArgs() returns (args: seq<string>)
      ensures args == BuildArgs(BuildType, KubeRoot, NodeImage, commonOptions.shouldBuild)
    {
      args := ["build", "node-image"];
      if BuildType != "" {
        args := args + ["--type", BuildType];
      }
      if KubeRoot != "" {
        args := args + ["--kube-root", KubeRoot];
      }
      if NodeImage != "" {
        args := args + ["--image", NodeImage];
      } else if commonOptions.shouldBuild {
        args := args + ["--image", KindDefaultBuiltImageName];
      }
    }

    /** Builds the node image: runs kind with the argument list, where kind
        stands for running the kind binary with the given arguments. A failure
        is returned as is and nothing is stored; on success the common binaries
        of KubeRoot are stored in the run directory. */
    method Build(kind: seq<string> -> Outcome) returns (err: Outcome)
      modifies this`invocations
      ensures var args := BuildArgs(BuildType, KubeRoot, NodeImage, commonOptions.shouldBuild);
        && err == kind(args)
        && invocations == old(invocations) + [Exec("kind", args)]
           + (if err.Pass? then [StoreCommonBinaries(KubeRoot, commonOptions.runDir)] else [])
    {
      var args := NodeImageArgs();
      invocations := invocations + [Exec("kind", args)];
      var result := kind(args);
      if result.Fail? {
        return result;
      }
      invocations := invocations + [StoreCommonBinaries(KubeRoot, commonOptions.runDir)];
      return Pass;
    }
  }
}
