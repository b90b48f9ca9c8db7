# kubetest2 deployers: run-scoped names and the kind node-image build

This project models two small pieces of deterministic logic from the kubetest2
deployers (Kubernetes' cluster test harness), written in Go, and proves what
they promise.

- **GCE deployer, resource naming and defaults** (`gce_deployer.dfy`, module
  `GceDeployer`). `pseudoUniqueSubstring` keeps at most the first 13 bytes
  of a run's UUID (13 characters in the model, the same thing for the ASCII text
  of a UUID). `New` names the cluster's instances and network
  `"kt2-" + pseudoUniqueSubstring(RunID)`, so the names start with a letter and
  stay short. It also fills in the Boskos (project lease pool) timeouts, the
  Boskos location, the node count and the build options. The code is pure, so
  the model is functions over strings, a `Deployer` datatype holding the
  derived and default fields, and lemmas. Beyond the length bound, the prefix
  relation and idempotence, the model shows three more things for run ids in
  the canonical RFC 4122 text form (8-4-4-4-12 lower-case hex digits). The
  kept fragment is exactly `time_low-time_mid`. The derived names are valid
  Compute Engine resource names (1 to 63 characters, `[a-z]([-a-z0-9]*[a-z0-9])?`).
  Two runs get the same names exactly when their UUIDs agree on those two
  time fields.
- **kind deployer, `Build`** (`kind_deployer.dfy`, module `KindDeployer`).
  `Build` grows the argument list of `kind build node-image` one flag pair at a
  time (`--type`, `--kube-root`, `--image`) and runs kind. If kind fails, it
  returns that error. Otherwise it stores the common Kubernetes binaries and
  returns nil. The model is a class `Deployer`:
  - `NodeImageArgs` builds a `seq<string>` step by step, proved equal to the
    specification function `BuildArgs`.
  - `Build` takes the kind process as a parameter (a function from argv to an
    outcome) and records what it does in an invocation log: first `Exec`, then
    `StoreCommonBinaries` only on success.
  - The flags are read back with `LookupFlag` and `FlagNames`, which step over
    flag/value pairs. The lemmas use them to state the presence, value, order
    and multiplicity of every flag. A plain membership test would not work:
    a value such as `KubeRoot == "--type"` would look like a flag.

The description of the `BoskosLocation` field
(kubetest2-gce/deployer/deployer.go:81) ends in `...svc.cluster.local."`, where
the final period may close the sentence or be a trailing dot of the host name.
`DefaultBoskosLocation` keeps the literal that `New` writes at :141, with its
trailing dot.

## Model

| member | source | states |
|---|---|---|
| GceDeployer.PseudoUniqueSubstring | kubetest2-gce/deployer/deployer.go:106-119 | the result is a prefix of the run id, at most 13 characters long; it is the run id itself when that has at most 13 characters, and exactly 13 characters otherwise |
| GceDeployer.PseudoUniqueSubstringIdempotent | kubetest2-gce/deployer/deployer.go:106-119 | truncating an already truncated id changes nothing |
| GceDeployer.PseudoUniqueSubstringIsLongestBoundedPrefix | kubetest2-gce/deployer/deployer.go:100-119 | every prefix of the run id that fits in 13 characters is a prefix of the result, so the result keeps as much of the id as the bound allows |
| GceDeployer.UuidFragmentIsTimeFields | kubetest2-gce/deployer/deployer.go:107-114 | for a canonical RFC 4122 UUID the kept fragment is exactly time_low "-" time_mid (e.g. 09a2565a-7ac6) |
| GceDeployer.DerivedName | kubetest2-gce/deployer/deployer.go:136-138 | a derived name starts with "kt2-" and so with a lower-case letter, and after "kt2-" is a prefix of the run id of length min(|run id|, 13), so it is 4 to 17 characters long and carries exactly the truncated run id |
| GceDeployer.New | kubetest2-gce/deployer/deployer.go:122-143 | instancePrefix and network are equal, start with "kt2-" (a letter) and continue with the run id's first min(|run id|, 13) characters, so they have at most 17; Boskos acquire timeout and heartbeat interval are 300 s, the Boskos location is the in-cluster service, NumNodes is 3, GCPProject is empty, build strategy "make" for linux/amd64 |
| GceDeployer.DerivedNameChars | kubetest2-gce/deployer/deployer.go:136-138 | if the run id uses only lower-case letters, digits and hyphens, so do the derived names |
| GceDeployer.UuidRunNamesAreValid | kubetest2-gce/deployer/deployer.go:100-138 | for a run id that is a canonical UUID, instancePrefix and network are valid Compute Engine resource names |
| GceDeployer.UuidRunNamesCollideIffTimeFieldsAgree | kubetest2-gce/deployer/deployer.go:107-138 | two canonical-UUID runs get the same instance prefix if and only if their time_low and time_mid fields are equal |
| KindDeployer.ImageFlagValue | kubetest2-kind/deployer/build.go:38-44 | an explicit NodeImage always wins; with no NodeImage the default built image name is used when ShouldBuild() holds; there is no image exactly when NodeImage is empty and ShouldBuild() is false; a chosen image is never empty |
| KindDeployer.BuildArgs | kubetest2-kind/deployer/build.go:29-44 | the argument list starts with "build", "node-image" and has an even length of at most 8 |
| KindDeployer.BuildFlagNames | kubetest2-kind/deployer/build.go:32-44 | the flag names after "build node-image" are, in this order, --type when BuildType is non-empty, --kube-root when KubeRoot is non-empty, and --image when an image is chosen |
| KindDeployer.BuildFlagsLookup | kubetest2-kind/deployer/build.go:32-44 | reading the flag pairs back, --type carries BuildType exactly when it is non-empty, --kube-root carries KubeRoot exactly when it is non-empty, --image carries the value ImageFlagValue chooses, and no other flag is present |
| KindDeployer.BuildFlagsRoundTrip | kubetest2-kind/deployer/build.go:32-44 | the flag names are, in this order, --type, --kube-root, --image, each present exactly when Build adds its pair, and each flag reads back as the value Build meant to give it |
| KindDeployer.BuildArgsShape | kubetest2-kind/deployer/build.go:29-44 | the list has length 2 + 2k for its k flag pairs; --image occurs at most once, and not at all when NodeImage is empty and ShouldBuild() is false |
| KindDeployer.Deployer.NodeImageArgs | kubetest2-kind/deployer/build.go:29-44 | the list built pair by pair equals the specification BuildArgs of the deployer's BuildType, KubeRoot, NodeImage and ShouldBuild() |
| KindDeployer.Deployer.Build | kubetest2-kind/deployer/build.go:28-53 | kind is run once with exactly BuildArgs; its error is returned unchanged and nothing is stored; on success the common binaries of KubeRoot are stored into RunDir after the run, and nil is returned |

## Left out

- The Boskos lease manager (acquiring a project, the heartbeat goroutine, its close channel `boskosHeartbeatClose`, releasing the lease) and `sync.Once`. The two deployer files hold no logic for them, only fields; the logic lives in files that are not part of this model.
- The flag set built by `gpflag.Parse` and `AddGoFlagSet` in `New`. These are foreign flag libraries.
- `kubeconfigPath` and `logsDir` in `New`. They are `filepath.Join` results built from the run directory and the artifacts directory, which depend on the environment.
- PseudoUniqueSubstring, DerivedName, New: Go's `len` and slicing count UTF-8 bytes, while the model counts characters, so the bounds of 13 and 17 are stated in characters. The two agree on ASCII run ids, which the RFC 4122 UUIDs that kubetest2 uses as run ids are (kubetest2-gce/deployer/deployer.go:107-109). On a non-ASCII run id Go may cut inside a multi-byte character, which the model does not capture.
- The build options' `Builder` (`build.NoopBuilder`) and `Stager` (`build.NoopStager`) that `New` sets. They are objects of the build package, which is not part of this model; only the `Strategy` and `TargetBuildArch` strings are modelled.
- The `Deployer` fields that `New` leaves at Go's zero values. Of these, only `GCPProject` is modelled, because an empty project means a project is leased from Boskos.
- `Kubeconfig()`, an `os.Stat` check on the filesystem, and the trivial `Provider()` and `Version()` getters.
- The `setRepoPathIfNotSet` test in kubetest2-gce/deployer/build_test.go. That function's code is not part of this model, and it depends on the process's working directory.
- `process.ExecJUnit` and `build.StoreCommonBinaries` are modelled only by their effect. The kind run is a parameter from argv to pass/fail. Storing is an entry in the invocation log. The environment passed to kind (`os.Environ()`) is not modelled.
- The `klog` progress message in `Build`.
- `kindDefaultBuiltImageName` is defined in a kind deployer file that is not part of this model. The model gives it kind's default built image name, `kindest/node:latest`. The proofs use only the fact that it is non-empty.
