# Database-cluster describe, modelled in Dafny

This project models the `describe` subcommand of the database-cluster CLI
(`pkg/cmd/dbcluster/describe.go`). The model has three parts.

- **Argument completion** (`DescribeOptions.Complete`). It refuses an empty
  argument list and takes the namespace from the kubeconfig. It drops
  namespace enforcement under all-namespaces, and it puts the playground
  resource type in front of the user's arguments.
- **The projection** (`buildClusterInfo`). It turns one untyped cluster
  document into the flat summary record that the command prints. The Go
  code reads three sub-maps and seven leaves by unchecked type assertion.
  Each failed assertion is a run-time panic, which the model represents as
  a `Failure` naming the path, the type asserted and the type found.
  Topology is derived from the instance count. Labels are rendered as
  `key:value ` entries. Engine and storage come from constants.
- **The run loop** (`DescribeOptions.Run`). It walks the infos the resource
  builder located, in order, and fetches each one with the dynamic client.
  It projects the fetched object and prints the summary. The first fetch
  error or panic ends the run. The loop also keeps a message-deduplicated
  soft-error list, and it writes "No resources found" when nothing was
  located.

The model is split into five modules:

- `Wrappers`: `Option` and `Result`.
- `Unstructured`: the JSON document tree, Go's map index, type assertions
  and `GetLabels`.
- `Labels`: the label column and its inverse parser.
- `Projection`: `buildClusterInfo`.
- `Describe`: `Complete`, the loop and `Run`.

`Scenarios` proves the projection's result on concrete documents.

The loop has a second, independent definition written without the loop:

- the summaries of the infos before the first bad one;
- the keys fetched;
- the first occurrence of each soft error.

`Describe.LoopMatchesReference` proves the loop equal to that definition.
The run lemmas are derived from it.

External parts are inputs:

- the resource builder's outcome is a `Located` value;
- the dynamic client's `Get` is a function from fetch key to document or
  error;
- printed summaries, fetched keys and error-stream lines are sequences
  that the run returns;
- the kubeconfig answers in `Complete` are an `Environment` value.

The playground defaults for root user, port and engine are the parameter
`Defaults`. Their values live in a package that is not part of this model.

## Model

| member | source | states |
|---|---|---|
| Describe.Complete | pkg/cmd/dbcluster/describe.go:81-117 | Empty args fail with the fixed message. Completion fails exactly when args are empty, the kubeconfig namespace fails, or a REST config exists but the client cannot be made. The error returned is the kubeconfig loader's error, or the client constructor's error, unchanged. On success the builder args are the playground source name followed by the args, the namespace is the kubeconfig's, enforcement holds iff the kubeconfig enforces and all-namespaces is off, and a REST config failure leaves no client while still returning success |
| Unstructured.FieldSpec | pkg/cmd/dbcluster/describe.go:184-194 | A Go map index yields the value of the first entry with that key. A non-nil answer is the value of an entry with that key, and the answer is nil when no entry has the key |
| Unstructured.FieldOfDistinctKeys | pkg/cmd/dbcluster/describe.go:184-194 | In a decoded object, whose keys are distinct, indexing by any entry's key yields that entry's value |
| Unstructured.AsMap | pkg/cmd/dbcluster/describe.go:184-186 | The map assertion succeeds iff the value is an object, returns its entries, and otherwise panics naming the path, `map` and the kind found |
| Unstructured.AsString | pkg/cmd/dbcluster/describe.go:188-194 | The string assertion succeeds iff the value is a string and returns it; otherwise it panics naming the path and the kind found |
| Unstructured.AsInt64 | pkg/cmd/dbcluster/describe.go:188-194 | The int64 assertion succeeds iff the value is an int64 (a float64 does not pass) and returns it; otherwise it panics naming the path and the kind found |
| Unstructured.LabelsOf | pkg/cmd/dbcluster/describe.go:180 | When `metadata.labels` is an object of strings, the label pairs are its entries in order. In every other case there are no labels |
| Labels.RenderAppend | pkg/cmd/dbcluster/describe.go:180-182 | Rendering the concatenation of two pair lists is the concatenation of their renderings, so the column is the in-order concatenation of the entries |
| Labels.RenderCons | pkg/cmd/dbcluster/describe.go:180-182 | The rendering is the first pair's `key:value ` entry followed by the rendering of the rest |
| Labels.RenderLength | pkg/cmd/dbcluster/describe.go:180-182 | No labels render as the empty string and only then; the length is the sum of key length plus value length plus two over all pairs |
| Labels.ParseRender | pkg/cmd/dbcluster/describe.go:180-182 | For label pairs with no space in keys or values and no colon in keys, parsing the rendered column gives back the pairs in order |
| Projection.BuildClusterInfo | pkg/cmd/dbcluster/describe.go:179-201 | On success: namespace, name, root user and port are those the caller filled in; engine is the default and storage is 2; topology is "Standalone" iff instances is 1, and "Cluster" otherwise |
| Projection.FirstFailingFrom | pkg/cmd/dbcluster/describe.go:184-194 | The index of the first type assertion from `i` on that does not hold, all before it holding, or the count of assertions when all hold |
| Projection.SubMapsFollowChecks | pkg/cmd/dbcluster/describe.go:184-186 | Reading the three sub-maps succeeds iff the first three assertions hold; otherwise it fails with the panic of the first that does not |
| Projection.ReadSpecFollowsChecks | pkg/cmd/dbcluster/describe.go:188-191 | Given the sub-maps, reading the spec leaves succeeds iff the four spec assertions hold; otherwise it fails with the first failing one's panic |
| Projection.ReadStatusFollowsChecks | pkg/cmd/dbcluster/describe.go:192-194 | Given the sub-maps and spec leaves, reading the status leaves succeeds iff the three status assertions hold; otherwise it fails with the first failing one's panic |
| Projection.ProjectionFailsAtFirstFailingCheck | pkg/cmd/dbcluster/describe.go:184-194 | The projection succeeds iff the three sub-maps are maps and the seven leaves have their exact types. A failure is the panic of the first assertion, in source order, that does not hold |
| Projection.ProjectedFieldsMatchDocument | pkg/cmd/dbcluster/describe.go:180-194 | On success the seven projected fields equal the document's values at their paths, unchanged, and the labels are the rendered label pairs appended to what the record held |
| Scenarios.StandaloneDocument | pkg/cmd/dbcluster/describe.go:179-201 | A one-instance document with one label projects to the full expected record, with topology "Standalone" and labels "env:prod " |
| Scenarios.ThreeInstanceDocument | pkg/cmd/dbcluster/describe.go:195-198 | A three-instance document without labels projects with topology "Cluster" and an empty label column |
| Scenarios.FloatInstancesPanic | pkg/cmd/dbcluster/describe.go:189 | A fractional instance count panics at `spec.instances`, asserting int64 and finding float64 |
| Describe.Step | pkg/cmd/dbcluster/describe.go:141-165 | One iteration keeps the soft-error invariant, only extends the printed, fetched and error lists, prints and fetches at most once, and can only stop with a returned error or a panic |
| Describe.Loop | pkg/cmd/dbcluster/describe.go:141-165 | The loop keeps the soft-error invariant, only extends its lists, and fetches at most once per remaining info |
| Describe.DedupSpec | pkg/cmd/dbcluster/describe.go:148-154 | The deduplicated list holds every message once and exactly the messages of the original list |
| Describe.LoopMatchesReference | pkg/cmd/dbcluster/describe.go:141-165 | The loop from the empty state equals the reference outcome at the first bad info. That outcome is the summaries of the good infos before it, the keys fetched up to and including it, the first occurrence of each soft error, and its fetch error or panic |
| Describe.LoopFollowsReference | pkg/cmd/dbcluster/describe.go:141-165 | From any point reached through good infos, the rest of the loop ends in the reference outcome |
| Describe.LoopDedupsSoftErrors | pkg/cmd/dbcluster/describe.go:148-154 | After the loop the message set equals the set of messages in the error list, no message is listed twice, and the list is the first occurrence of each soft error met |
| Describe.SameSoftErrorRecordedOnce | pkg/cmd/dbcluster/describe.go:148-154 | Two infos carrying the same soft error record it once and fetch nothing |
| Describe.RunAllSucceed | pkg/cmd/dbcluster/describe.go:141-176 | When every fetch and projection succeeds, the run returns nil. It prints one summary per info and fetches each info once, both in the order located |
| Describe.RunStopsAtFirstFailure | pkg/cmd/dbcluster/describe.go:141-165 | When info `i` is the first whose fetch or projection fails, the run returns that error or panic. It has printed the summaries of infos before `i` in order, fetched infos up to `i` and nothing after, and written nothing to the error stream |
| Describe.RunNeverAggregates | pkg/cmd/dbcluster/describe.go:134-154 | The soft-error branch checks an error that has already ended the run, so a run never returns an aggregate |
| Describe.NoResourcesIff | pkg/cmd/dbcluster/describe.go:167-174 | "No resources found" is written iff the builder located nothing and reported no error. Its wording names the namespace unless all-namespaces is set, and such a run returns nil having printed and fetched nothing |
| Describe.BuilderErrorReturnedFirst | pkg/cmd/dbcluster/describe.go:129-138 | A builder error, or an error listing its infos, is returned before anything is fetched, printed or written |
| Describe.SummaryCarriesIdentity | pkg/cmd/dbcluster/describe.go:142-158 | A printed summary carries the root user and port defaults, the engine default, storage 2 and the located namespace and name, none taken from the document |
| Describe.FetchedKeysScope | pkg/cmd/dbcluster/describe.go:159 | Keyed by the command's namespace every fetch goes to it; keyed by the located namespace every fetch is for a located resource |
| Describe.RunFetchesFromOptionsNamespace | pkg/cmd/dbcluster/describe.go:159 | As written, every `Get` of a run goes to the command's namespace, whatever namespace the resource was located in |
| Describe.RunCorrectedFetchesLocatedResources | pkg/cmd/dbcluster/describe.go:157-159 | With the fetch keyed by the located namespace, every `Get` asks for a located resource in the namespace where it was located |
| Describe.AllNamespacesFetchesWrongNamespace | pkg/cmd/dbcluster/describe.go:159 | Under all-namespaces, a cluster located in "prod" while the command's namespace is "default" is fetched from "default" as written, and from "prod" when corrected |
| Describe.RunAgreesWithCorrectedInOwnNamespace | pkg/cmd/dbcluster/describe.go:157-159 | When every located resource is in the command's namespace, the run as written and the corrected run produce the same result |

## Left out

- Cobra command construction and `cmdutil.CheckErr` (lines 59-79) are CLI wiring.
- The kubeconfig loader, `ToRESTConfig` and `dynamic.NewForConfig` are I/O. Their outcomes are the `Environment` input of `Complete`, and `hasClient` records whether a client was set.
- `Run` assumes completion set a client and a builder. `Run` does not read `hasClient`. After a `ToRESTConfig` failure, completion returns nil without setting either (lines 103-106, 113-114). The following `Run` would then call a nil builder at line 120, and the model does not represent that crash.
- Completion's `Describer` and `NewBuilder` assignments (lines 98-100, 114) store closures and are not modelled.
- The `resource.Builder` chain (lines 120-128) is an external library. Its result is the `Located` input: `r.Err()`, the infos, and the error from `r.Infos()`.
- `info.ResourceMapping()` is reduced to the resource name carried by each `Info`.
- `utils.PrintClusterInfo`, the `DBClusterInfo` type and the playground constants are not part of this model. Printing is appending to the `printed` sequence. The defaults are the `Defaults` parameter, and the port is modelled as a string.
- `utilerrors.NewAggregate` is modelled as `Aggregate` over the error list, or `Nil` when the list is empty. Error formatting on the error stream is reduced to the two message strings.
- The lemmas range over all entry lists, including lists that repeat a key. Lookups take the first entry with a key, and `LabelsOf` would render a repeated label key twice, which no decoded Go map can hold. `Unstructured.DistinctKeys` states the decoded domain.
- Go's map iteration order is nondeterministic. An object's entries are a sequence, and the labels render in that sequence's order.
- `GetLabels` is not part of this model. It is modelled as yielding no labels whenever `metadata.labels` is missing or not an object of strings, because the accessor ignores its error. It is not modelled as a failure.
- Go's interface equality on error values is reduced to message strings. The source's set holds `err.Error()`, while its list holds the errors.
- Panics are modelled as values. The summaries printed before a panic remain in the result.

## Findings

| source | as written | input that shows it | evidently intended | confidence | as-written member | corrected member |
|---|---|---|---|---|---|---|
| pkg/cmd/dbcluster/describe.go:159 | The `Get` for each located info uses the command's namespace `o.Namespace`, while the summary reports `info.Namespace` (line 157) | All-namespaces set, command namespace "default", one cluster "c1" located in "prod": the run fetches `default/c1` | Fetch each resource from the namespace it was located in | low, not executed; no flag in this file sets all-namespaces, so the mismatch is latent | Describe.AllNamespacesFetchesWrongNamespace | Describe.RunCorrectedFetchesLocatedResources |

`Describe.Run` models the code as written. `Describe.RunCorrected` keys each
fetch by the located namespace. `Describe.RunAgreesWithCorrectedInOwnNamespace`
proves that the two agree whenever every resource lives in the command's
namespace.
