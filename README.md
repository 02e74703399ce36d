# Okio's Kotlin Multiplatform source-set hierarchy

The `kotlin { ... }` block of `okio/build.gradle.kts` does three things:

- It declares the build's targets: `jvm` always, `js` under the Gradle property `kmpJsEnabled`, and ten native targets under `kmpNativeEnabled`.
- It looks up the default source sets it wires with `by getting` (every one except the two tvOS test sets, which it never names) and creates the intermediate ones with `by creating`: `nonJsMain`, `nonJvmMain`, `nativeMain`, `nativeTest`, `sizet32Main`, `sizet64Main`, `mingwMain`, `unixMain`, `appleMain`, `appleTest` and `linuxMain`.
- It wires them together with `dependsOn`. A source set sees the code of every source set it reaches through `dependsOn`.

The model has four layers.

1. **`SourceSetNames`** (`names.dfy`): source-set names, the two flags, and which `if` each platform sits under.
2. **`SourceSetContainer.Container`** (`container.dfy`): the plugin's `kotlin.sourceSets` container as the script uses it. It is a class whose fields are the declared targets, the registered source sets, the `dependsOn` edges in call order and the attached source directories. Its methods change those fields in place.
   - `by creating` on a taken name records an `AlreadyExists` failure.
   - `by getting` on a missing name records an `UnknownSourceSet` failure.
3. **`DependsOnGraph`** (`graph.dfy`): parents, reflexive-transitive ancestors (`Ancestors`), paths and ranking.
4. **`OkioBuildScript`** (`script.dfy`): the block itself, statement by statement, as methods on a `Container`.
   - `Build` runs the whole block on a fresh container.
   - It proves that no failure occurs under any flag setting.
   - It proves that the resulting edges are `ScriptEdges(flags)` and the resulting source sets are exactly those `Declared` under the flags.

The properties of the resulting hierarchy are stated in two modules.

- **`EdgeTable`** (`table.dfy`; module `EdgeTable`):
  - `ParentTable(s, f)` gives each source set's parents as one table.
  - `ScriptIsTable` proves that the script's edges hold exactly the table's pairs (the predicate `TableGraph`).
  - `AncestorsAreTable` computes the ancestors of every source set under every flag setting.
- **`DistinctEdges`** (`distinct.dfy`): the script never calls `dependsOn` twice with the same pair, under any flag setting (`ScriptEdgesDistinct`), so the edge list in call order stands for the plugin's per-set collection of `dependsOn` targets.
- **`HierarchyClaims`** (`claims.dfy`):
  - Every claim is stated for any edge list `g` with `TableGraph(g, f)`. The script's edges are one such list, so each claim applies to `Build(flags).edges`; `BuildHierarchy` runs `Build` and proves exactly that, together with the exact ancestor sets, acyclicity and duplicate-free edges of the container it returns.
  - The claims cover acyclicity, roles never crossing, closed gates leaving no trace, the JVM/JS exclusion, pointer sizes, and agreement with the hierarchy drawn in the header comment.
  - They also state where the `src/hashFunctions/kotlin` directory is visible: in the main source set of every enabled target other than jvm, and in `jvmTest`.

## What the script does

- The flags decide what is built: a source set under a closed `if` is never declared, looked up or wired.
- The plugin rejects a `dependsOn` that would close a cycle. That check never fires for this script: its edges are acyclic under every flag setting (`GraphAcyclic`).
- Test source sets do not mirror the main hierarchy.
  - Only `nativeTest` and `appleTest` exist as intermediate test sets.
  - The two tvOS test sets get no edge at all.
- The pointer-size sets `sizet32Main` and `sizet64Main` attach to the apple leaf Mains and to `linuxX64Main`, not to `appleMain` or `linuxMain`.
  - The header comment says every child of `unix` gets one. `mingwX64Main`, which is not under `unix`, gets neither.
- The model records each `dependsOn` call as an append to an edge list, in call order.

## Model

| member | source | states |
|---|---|---|
| SourceSetContainer.Container.constructor | okio/build.gradle.kts:84-97 | a fresh container has no target, no edge and no failure; the only registered sets are `commonMain` and `commonTest`, which the later `by getting` calls rely on |
| SourceSetContainer.Container.DeclareTarget | okio/build.gradle.kts:43-75 | declaring a target appends it to the targets and registers its `Main` and `Test` sets; nothing else changes |
| SourceSetContainer.Container.Creating | okio/build.gradle.kts:98-100 | `by creating` registers a new set; when the name is already taken it fails with `AlreadyExists` and registers nothing |
| SourceSetContainer.Container.Getting | okio/build.gradle.kts:84-89 | `by getting` changes nothing; it fails with `UnknownSourceSet` exactly when the name is not registered |
| SourceSetContainer.Container.DependsOn | okio/build.gradle.kts:104-106 | `dependsOn` appends exactly one edge from child to parent and keeps every edge between registered sets |
| SourceSetContainer.Container.AddSrcDir | okio/build.gradle.kts:100-102 | `kotlin.srcDir` appends one directory owned by the enclosing set; nothing else changes |
| OkioBuildScript.Declare | okio/build.gradle.kts:43-75 | one target declaration keeps the registered sets equal to `Registered(targets)` |
| OkioBuildScript.DeclareTargets | okio/build.gradle.kts:42-76 | after the target declarations, the targets are `DeclaredTargets(flags)`, the registered sets are theirs plus the common pair, and there are no edges yet |
| OkioBuildScript.InRegistered | okio/build.gradle.kts:43-75 | a set is registered after a list of declarations exactly when it is common or its platform was declared |
| OkioBuildScript.RegisteredAppend | okio/build.gradle.kts:43-75 | declaring one more target adds exactly that target's two default sets |
| OkioBuildScript.DeclaredTargetsExactly | okio/build.gradle.kts:42-76 | a platform is declared exactly when it is a target whose `if` is open under the flags |
| OkioBuildScript.RegisteredByFlags | okio/build.gradle.kts:42-76 | after the declarations, a set is registered exactly when it is common or belongs to an enabled target |
| OkioBuildScript.SharedFacts | okio/build.gradle.kts:84-118 | the sets the shared block looks up are registered under every flag setting, and the two it creates are not, so neither delegate can fail there |
| OkioBuildScript.ConfigureShared | okio/build.gradle.kts:84-118 | the shared block adds `nonJsMain` and `nonJvmMain`, the single edge `jvmMain -> nonJsMain` and the two `hashFunctions` directories, without failure under any flags |
| OkioBuildScript.ConfigureJs | okio/build.gradle.kts:120-133 | with `kmpJsEnabled`, the js block adds only `jsMain -> nonJvmMain` and cannot fail |
| OkioBuildScript.NativeFamilyFacts | okio/build.gradle.kts:135-170 | the family sets created in lines 135-170 are not yet registered and the sets they look up (`commonTest`, `nonJsMain`, `nonJvmMain`, `mingwX64Main`, `mingwX64Test`) are, so no `by creating` or `by getting` there fails |
| OkioBuildScript.NativeFamilies | okio/build.gradle.kts:135-170 | the family block creates exactly the eight family sets and appends its eleven edges in order |
| OkioBuildScript.NativeBaseBlock | okio/build.gradle.kts:135-149 | `nativeMain`, `nativeTest`, `sizet32Main` and `sizet64Main` are created and the five edges of these lines are appended |
| OkioBuildScript.MingwBlock | okio/build.gradle.kts:151-159 | `mingwMain` is created and `mingwMain -> nativeMain`, `mingwX64Main -> mingwMain` and `mingwX64Test -> nativeTest` are appended |
| OkioBuildScript.UnixAppleBlock | okio/build.gradle.kts:161-170 | `unixMain`, `appleMain` and `appleTest` are created with their three edges |
| OkioBuildScript.Create1 | okio/build.gradle.kts:140-142 | `by creating` one new set with a single `dependsOn` registers it and appends that edge |
| OkioBuildScript.Create2 | okio/build.gradle.kts:136-139 | `by creating` one new set with two `dependsOn` registers it and appends both edges in order |
| OkioBuildScript.Get1 | okio/build.gradle.kts:157-159 | `by getting` a registered set with one `dependsOn` appends that edge and registers nothing |
| OkioBuildScript.Get2 | okio/build.gradle.kts:213-216 | `by getting` a registered set with two `dependsOn` appends both edges in order |
| OkioBuildScript.AppleFacts | okio/build.gradle.kts:171-207 | with native on, every apple leaf set the loops look up is registered, so no lookup fails |
| OkioBuildScript.AppleLeaves | okio/build.gradle.kts:171-207 | the five apple loops register nothing and append `AppleLeafEdges` of the edges so far |
| OkioBuildScript.AppleWide64MainsBlock | okio/build.gradle.kts:171-177 | each of iosX64Main, iosArm64Main and macosX64Main gets `sizet64Main` then `appleMain`, in list order |
| OkioBuildScript.AppleWide64TestsBlock | okio/build.gradle.kts:179-184 | each of the three 64-bit apple test sets gets `appleTest`, in list order |
| OkioBuildScript.WatchosMainsBlock | okio/build.gradle.kts:186-193 | each watchOS main set gets `sizet32Main` then `appleMain` |
| OkioBuildScript.TvosMainsBlock | okio/build.gradle.kts:195-200 | each tvOS main set gets `sizet64Main` then `appleMain` |
| OkioBuildScript.WatchosTestsBlock | okio/build.gradle.kts:202-207 | each watchOS test set gets `appleTest` |
| OkioBuildScript.ForEachDependsOn1 | okio/build.gradle.kts:182-184 | the loop `for (it in children) it.dependsOn(parent)` appends one edge per child, in list order |
| OkioBuildScript.ForEachDependsOn2 | okio/build.gradle.kts:174-177 | the two-parent loop appends, per child in list order, the edge to the first parent and then the edge to the second |
| OkioBuildScript.LinuxFamily | okio/build.gradle.kts:209-219 | `linuxMain` is created and the five linux edges are appended; the registered sets end as `ScriptNodes(flags)` |
| OkioBuildScript.ScriptNodesDeclared | okio/build.gradle.kts:42-219 | the sets the script registers are exactly the `Declared` ones |
| OkioBuildScript.NodeOrigins | okio/build.gradle.kts:42-219 | a set is declared exactly when it is common, belongs to an enabled target, is `nonJsMain` or `nonJvmMain`, or is a native family set with native on |
| OkioBuildScript.Build | okio/build.gradle.kts:42-221 | the whole block never fails; it leaves `DeclaredTargets(flags)` as the targets, the `Declared` sets as nodes, `ScriptEdges(flags)` as edges and the two hashFunctions directories |
| EdgeTable.ScriptEdgesInBlocks | okio/build.gradle.kts:104-219 | every script edge comes from the shared block, the js block with js on, or one of the native blocks with native on |
| EdgeTable.ScriptEdgesAreTable | okio/build.gradle.kts:104-219 | an edge is in the script's edges exactly when its parent is in `ParentTable` of its child |
| EdgeTable.ScriptIsTable | okio/build.gradle.kts:104-219 | the script's edge list satisfies `TableGraph`, so every claim below about such lists holds for it |
| EdgeTable.AncestorsWithin | okio/build.gradle.kts:104-219 | a set closed under the table's parents contains all ancestors of each of its members |
| EdgeTable.AncestorsAreTable | okio/build.gradle.kts:104-219 | the ancestors of every source set, under every flag setting, are exactly `AncestorTable` |
| HierarchyClaims.TableSound | okio/build.gradle.kts:104-219 | every table edge joins two declared sets of the same role and goes strictly up in depth |
| HierarchyClaims.EdgeSound | okio/build.gradle.kts:104-219 | every edge joins declared sets of the same role and goes up in depth, so no `dependsOn` names a set the flags left out |
| HierarchyClaims.GraphAcyclic | okio/build.gradle.kts:104-219 | no source set is its own proper ancestor under any flags |
| HierarchyClaims.RolesNeverCross | okio/build.gradle.kts:104-219 | main sets reach only main sets and test sets only test sets |
| HierarchyClaims.ClosedGateLeavesNoTrace | okio/build.gradle.kts:46-219 | a source set under a closed `if` is not declared and no edge touches it |
| HierarchyClaims.SharedAlwaysPresent | okio/build.gradle.kts:84-118 | common, jvm, `nonJsMain` and `nonJvmMain` exist under every flag setting, with `jvmMain -> nonJsMain` |
| HierarchyClaims.PlatformExclusion | okio/build.gradle.kts:37 | `jvmMain` sees `nonJsMain` and never `nonJvmMain`; with js on, `jsMain` sees `nonJvmMain` and never `nonJsMain` |
| HierarchyClaims.NativeLeavesSeeNative | okio/build.gradle.kts:135-216 | with native on, every native leaf main set sees `nativeMain`, `nonJsMain` and `nonJvmMain` |
| HierarchyClaims.PointerSize | okio/build.gradle.kts:32-35 | a native leaf sees `sizet32Main` exactly when it is a watchOS target and `sizet64Main` exactly when it is ios, macos, tvos or linuxX64 |
| HierarchyClaims.AppleFamiliesMatchDocTree | okio/build.gradle.kts:13-30 | for `appleMain` and the apple leaves in the drawing, a family node is an ancestor exactly when the drawing puts it on the leaf's line up to common |
| HierarchyClaims.OtherFamiliesMatchDocTree | okio/build.gradle.kts:13-30 | the same for `native`, `unix`, `linux`, `linuxX64`, `mingw` and `mingwX64` |
| HierarchyClaims.TvosOutsideDocTree | okio/build.gradle.kts:195-200 | the tvOS targets are absent from the drawing; their main sets still see `appleMain` and `sizet64Main`, but their test sets have no ancestors except themselves, while every other apple leaf test sees `appleTest` |
| HierarchyClaims.LinuxNativeEdgeRedundant | okio/build.gradle.kts:209-212 | `linuxMain -> nativeMain` is present but adds nothing, since `linuxMain`'s ancestors are itself plus `unixMain`'s |
| HierarchyClaims.Owners | okio/build.gradle.kts:101-112 | a set owns a directory path exactly when a `SrcDir` with that owner and path was attached |
| HierarchyClaims.HashFunctionsOwners | okio/build.gradle.kts:99-113 | `src/hashFunctions/kotlin` is attached to `nonJvmMain` and `jvmTest` and nothing else |
| HierarchyClaims.HashFunctionsPlacement | okio/build.gradle.kts:39-40 | the hashFunctions code is in scope of an enabled target's main set exactly when the target is not jvm, and it is in scope of `jvmTest` |
| HierarchyClaims.BuildHierarchy | okio/build.gradle.kts:42-221 | the container the whole block builds has no failure, holds exactly the table's edges, has the ancestor sets of `AncestorTable` for every source set, no source set is its own proper ancestor, and no edge occurs twice |
| DistinctEdges.DistinctAppend | okio/build.gradle.kts:104-219 | joining two duplicate-free edge lists with no edge in common gives a duplicate-free list |
| DistinctEdges.DependsOnAllDistinct | okio/build.gradle.kts:174-177 | `child.dependsOn(p)` over distinct parents adds no duplicate when no earlier edge starts at `child` |
| DistinctEdges.EachDependsOnDistinct | okio/build.gradle.kts:174-207 | a `for` loop over distinct children that no earlier edge starts at, with distinct parents, adds no duplicate |
| DistinctEdges.NativeFamilyDistinct | okio/build.gradle.kts:136-170 | the eleven family edges are pairwise different and start at sets no earlier edge starts at |
| DistinctEdges.AppleLeafDistinct | okio/build.gradle.kts:171-207 | the five apple loops add no duplicate, each running over children no earlier edge starts at |
| DistinctEdges.LinuxDistinct | okio/build.gradle.kts:209-219 | the five linux edges are pairwise different and new |
| DistinctEdges.ScriptEdgesDistinct | okio/build.gradle.kts:104-219 | under every flag setting, no `dependsOn` pair occurs twice in the script's edges |
| DependsOnGraph.Parents | okio/build.gradle.kts:104-219 | `p` is a parent of `s` exactly when the edge `s -> p` was added |
| DependsOnGraph.ClosureGrows | okio/build.gradle.kts:104-219 | the walk up the edges never loses the sets it started from, so every set is among its own ancestors |
| DependsOnGraph.ClosureKeeps | okio/build.gradle.kts:104-219 | a property that every edge carries from child to parent holds for all ancestors |
| DependsOnGraph.PathInClosure | okio/build.gradle.kts:104-219 | every set on a `dependsOn` path of at most `n` edges from the start is in the `n`-step closure |
| DependsOnGraph.RankedAcyclic | okio/build.gradle.kts:104-219 | when every edge goes strictly up in some rank, no set reaches itself through its parents |

## Left out

- The `jvmJar` `doLast` hook (lines 224-238) runs bnd over the built jar. That is file I/O and a foreign library.
- `withJava()` (line 44) and the options of the js target (lines 48-61) configure compilation and the js test runner. None of them adds a Kotlin source set or an edge.
- The `dependencies { ... }` blocks name external artifacts or other projects of the build (lines 95 and 130). They add no source set and no edge.
- The `languageSettings` block (lines 78-82) sets a compiler option on every source set. It does not change the graph.
- Gradle property parsing is not modelled. The flags `kmpJsEnabled` and `kmpNativeEnabled` are parameters of every member.
- The plugin's implicit edges are not modelled. The plugin makes each target's default sets depend on `commonMain` or `commonTest` and ties each test set to its main set, but this happens outside the script. The ancestors here follow only the script's explicit `dependsOn` calls, so `nonJsMain` and `nonJvmMain` have no parent in the model.
- The AnimalSniffer check on the Java `main` source set and the two signatures it adds to the `signature` configuration (lines 241-251) and the publishing script (line 253) are not part of the hierarchy.
- Compiling and merging expect and actual declarations are not part of the hierarchy.
- `SourceSetContainer.Container.DependsOn`: the plugin keeps each set's `dependsOn` targets as a set. This method appends to an edge list in call order, so a repeated call would add a duplicate edge. The script repeats none (`DistinctEdges.ScriptEdgesDistinct`), so the list loses nothing against the plugin's set. The plugin also rejects an edge that closes a cycle; the method has no such failure. The script never closes one (`GraphAcyclic`), so no outcome of the script changes.
- `SourceSetContainer.Container.Creating`: a failure here stands for the exception that ends the script. All container operations require `failure == None`, so nothing is modelled after a failure. `Build` proves that no failure occurs.
- `AppleFamiliesMatchDocTree`: it compares only the five family nodes (`native`, `unix`, `mingw`, `apple`, `linux`) against the drawing. It does not prove that no leaf is an ancestor of another set; `AncestorsAreTable` gives the full ancestor sets.
- `OtherFamiliesMatchDocTree`: the same restriction to the five family nodes.
- `HashFunctionsPlacement`: it speaks of main sets and `jvmTest` only. Test sets of the other targets see the directory only through the plugin's implicit test-to-main link, which is not modelled.
