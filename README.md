# Platform-name resolver of the Kubernetes cluster inspector

The inspector is a command-line tool. It connects to a Kubernetes cluster, lists
the cluster's objects through the official client library, and prints one
report. Almost all of its code forwards calls to that library. The one piece of
logic of its own is `platformName`. This function maps a node's provider ID
(`aws:///eu-central-1a/i-…`, `kind://docker/local/…`) to a short platform
label, such as `aws` or `kind`, or to `unknown`. Two queries share the node
listing: `Platform`, which resolves the provider ID of the first listed node
with `platformName`, and `Nodes`, which counts the listed nodes.

This project models those three operations in Dafny and proves what they do.

- `go_strings.dfy` (module `GoStrings`) models the three Go `strings` functions
  that `platformName` calls: `TrimSpace`, `ToLower` and `Split`. It also gives
  `Join`, the inverse that pins down what `Split` returns.
- `inspector.dfy` (module `Inspector`) models `platformName` as `PlatformName`,
  and `Platform` and `Nodes` as functions. The outcome of the node `List` call
  is their parameter. It is either the provider IDs of the listed nodes, in list
  order, or the call's error.

The model keeps two quirks of the resolver:

- The blank test looks at the trimmed ID, but the scheme is cut from the
  untrimmed, lowercased ID. So `" AWS:x"` resolves to `" aws"`, and `" :x"`
  resolves to `" "`.
- An ID that holds no `:` resolves to the whole lowercased ID, not to
  `unknown`. So `"//uuid"` gives `"//uuid"`.

The resolver splits the lowercased ID at every `:` (Go's `strings.Split`), not
only at the first one. Only the first piece is used, so the label is the same
as a split at the first `:`. The model follows the code and splits at every
`:`.

The `len(p) == 0` guard after the split is kept in `PlatformName`. The model
proves that it can never fire, because a split always yields at least one piece.

## Model

| member | source | states |
|---|---|---|
| `GoStrings.TrimSpace` | inspector.go:103 | trimming leaves nothing exactly when every character is white space (Go's `unicode.IsSpace` set); otherwise what is left starts and ends with a non-space character |
| `GoStrings.TrimSpaceCutsOnlySpace` | inspector.go:103 | the trimmed string is a contiguous piece of the input, and only white space lies before and after it |
| `GoStrings.ToLower` | inspector.go:107 | lowercasing keeps the length, leaves no upper-case ASCII letter, maps each upper-case letter to its lower-case one and keeps every other character |
| `GoStrings.ToLowerIdentity` | inspector.go:107 | a string without upper-case letters is left unchanged by lowercasing |
| `GoStrings.ToLowerIdempotent` | inspector.go:107 | lowercasing twice is the same as lowercasing once |
| `GoStrings.ToLowerKeepsNonLetters` | inspector.go:107 | lowercasing keeps every non-letter (such as `:`) at its position, and keeps a string blank exactly when it was blank |
| `GoStrings.IndexOf` | inspector.go:108 | the result is the position of the first separator, or the length when the string holds none |
| `GoStrings.Split` | inspector.go:108-111 | splitting always yields at least one piece, no piece holds the separator, the first piece is the input up to its first separator, and joining the pieces with the separator gives the input back |
| `GoStrings.SplitJoin` | inspector.go:108 | the other half of the round trip: splitting a join of separator-free pieces gives the pieces back |
| `Inspector.Scheme` | inspector.go:108 | the reference scheme is the input up to its first `:`: a prefix of the input that holds no `:` and is followed by `:` when shorter than the input, and the whole input exactly when the input holds no `:` |
| `Inspector.PlatformName` | inspector.go:102-116 | the label is never empty, never holds `:` and never holds an upper-case letter; a blank ID gives `unknown`, an empty scheme gives `unknown`, and otherwise the label is the scheme of the lowercased, untrimmed ID |
| `Inspector.PlatformNameMeaning` | inspector.go:102-116 | the whole resolver: `unknown` if the ID is blank or its lowercased scheme is empty, otherwise the lowercased scheme of the untrimmed ID |
| `Inspector.BlankIsUnknown` | inspector.go:103-106 | an empty or white-space-only ID resolves to `unknown` |
| `Inspector.LeadingColonIsUnknown` | inspector.go:107-114 | an ID that starts with `:` has an empty first piece and resolves to `unknown` |
| `Inspector.SchemeIsLowercased` | inspector.go:107-115 | an ID `<scheme>:<rest>` with a non-empty scheme resolves to the lowercased scheme, including any white space in it |
| `Inspector.NoColonPassesThrough` | inspector.go:107-115 | a non-blank ID without `:` resolves to the whole lowercased ID, not to `unknown` |
| `Inspector.PlatformNameIdempotent` | inspector.go:102-116 | resolving a label again returns it unchanged when it holds a non-space character |
| `Inspector.BlankNameResolvesToUnknown` | inspector.go:103-106 | a label made only of white space resolves to `unknown` the second time |
| `Inspector.EmptySplitUnreachable` | inspector.go:108-111 | the split of the lowercased ID has at least one piece, so the `len(p) == 0` guard is dead and the result depends only on the blank test and the first piece |
| `Inspector.UnknownExamples` | inspector.go:103-114 | `""`, `" "` and `"://4232e3c7"` resolve to `unknown` |
| `Inspector.SchemeExamples` | inspector.go:107-115 | the typical `aws`, `kind` and `vsphere` provider IDs resolve to their scheme |
| `Inspector.QuirkExamples` | inspector.go:103-115 | `"//uuid"` resolves to itself, `" AWS:x"` to `" aws"` and `" :x"` to `" "` |
| `Inspector.Platform` | inspector.go:88-97 | a failed listing passes its error on; an empty listing fails with "cannot verify platform name"; otherwise the result is the label of the first node |
| `Inspector.Nodes` | inspector.go:121-127 | a failed listing passes its error on; otherwise the result is the number of listed nodes |
| `Inspector.PlatformIgnoresLaterNodes` | inspector.go:96 | only the first node decides the platform; the nodes after it do not change the result |
| `Inspector.PlatformOkIffNodes` | inspector.go:88-127 | `Platform` succeeds exactly when `Nodes` succeeds with a positive count, and its label is then non-empty and free of `:` |

## Left out

- `GoStrings.ToLower`: applies only ASCII case mapping. Go's `strings.ToLower`
  also lowercases non-ASCII letters through Unicode case mapping. This is not
  modelled, so the no-upper-case guarantee of `PlatformName` covers ASCII
  letters only.
- Strings are sequences of Unicode scalar values. Go strings are byte
  sequences, and invalid UTF-8 (which `TrimSpace` and `ToLower` treat as a
  replacement rune) is not modelled.
- `GoStrings.Split` takes a one-character separator, which is the only kind
  `platformName` uses. Go's `strings.Split` with a longer or empty separator is
  not modelled.
- The Kubernetes node `List` call that `Platform` and `Nodes` make, with its
  context argument, is a foreign network call. Its outcome is a parameter.
  Each node is reduced to its provider ID.
- `BuildClientFromKubeConfig` is left out. It reads the home directory and the
  kubeconfig file, then constructs the library clients.
- The list and get wrappers are left out: `ClusterVersion`, `ClusterID`,
  `Pods`, `Events`, `ConfigMaps`, `Services`, `Deployments`, `StatefulSets`,
  `ReplicaSets`, `Leases`, `IngressClasses`, `Ingresses`,
  `CustomResourceDefinitions`, `ClusterNodes`, `NodeMetrics` and `PodMetrics`.
  Each one is a single remote call followed by an error check.
- `Podlogs` is left out. It streams container logs over the network.
- `Report` and `ReportJSON` are left out. `Report` is a fixed sequence of those
  remote calls, and `ReportJSON` is a library JSON encoding.
- `Main` and `cmd/inspector/main.go` are left out. They parse flags, print and
  exit the process.
