/**
 * The `kotlin { ... }` block of okio/build.gradle.kts: target declarations under
 * the two flags, then the `sourceSets { ... }` block that creates, looks up and
 * wires source sets in a fixed order.
 */
module OkioBuildScript {
  import opened SourceSetNames
  import opened DependsOnGraph
  import opened SourceSetContainer

  /** The directory both `nonJvmMain` and `jvmTest` add with `kotlin.srcDir`. */
  const HashFunctionsDir := "src/hashFunctions/kotlin"

  /** The source directories the script attaches, in order (lines 101 and 112). */
  const ScriptSrcDirs := [SrcDir(NonJvmMain, HashFunctionsDir), SrcDir(JvmTest, HashFunctionsDir)]

  /** The lists the five `for` loops iterate over. */
  const AppleWide64Mains := [IosX64Main, IosArm64Main, MacosX64Main]
  const AppleWide64Tests := [IosX64Test, IosArm64Test, MacosX64Test]
  const WatchosMains := [WatchosArm32Main, WatchosArm64Main, WatchosX86Main]
  const TvosMains := [TvosArm64Main, TvosX64Main]
  const WatchosTests := [WatchosArm32Test, WatchosArm64Test, WatchosX86Test]

  /** The source sets the native block makes `by creating`. */
  const NativeCreated := {NativeMain, NativeTest, Sizet32Main, Sizet64Main, MingwMain, UnixMain, AppleMain, AppleTest, LinuxMain}

  /** The edges after `child.dependsOn(p)` has run for each `p` of `parents`, in order. */
  function DependsOnAll(before: seq<Edge>, child: SourceSet, parents: seq<SourceSet>): (r: seq<Edge>)
    ensures forall e :: e in r <==> e in before || (e.child == child && e.parent in parents)
    ensures |r| >= |before|
  {
    if parents == [] then before
    else DependsOnAll(before, child, parents[..|parents| - 1]) + [Edge(child, parents[|parents| - 1])]
  }

  /** The edges after `for (it in children) { it.dependsOn(p1); it.dependsOn(p2) ... }`. */
  function EachDependsOn(before: seq<Edge>, children: seq<SourceSet>, parents: seq<SourceSet>): (r: seq<Edge>)
    ensures forall e :: e in r <==> e in before || (e.child in children && e.parent in parents)
    ensures |r| >= |before|
  {
    if children == [] then before
    else DependsOnAll(EachDependsOn(before, children[..|children| - 1], parents), children[|children| - 1], parents)
  }

  /*
   * The sequences and sets below are written as chains of one-element appends
   * and unions, `s + [x] + [y]` and `n + {x} + {y}`, rather than as displays.
   * Each link is one call of the script, and the chain has the same shape as
   * the states the methods further down leave behind, one call at a time, so
   * the verifier can match the two without reasoning about sequence or set
   * equality.
   */

  /** The targets of lines 43-76, in declaration order. */
  function DeclaredTargets(f: Flags): seq<Platform> {
    var jvm := [Jvm];
    var js := if f.jsEnabled then jvm + [Js] else jvm;
    if f.nativeEnabled then
      js + [IosX64] + [IosArm64] + [WatchosArm32] + [WatchosArm64] + [WatchosX86]
      + [TvosArm64] + [TvosX64] + [LinuxX64] + [MacosX64] + [MingwX64]
    else js
  }

  /*
   * Each block of the script as the edge sequence it leaves behind, given the
   * one it found. These functions are the one description of the blocks'
   * edges. Two modules restate them in a shape their proofs need, and each
   * restatement is proved equal to the function here, so a copy that drifted
   * would fail verification:
   * - `EdgeTable.NativeFamilyPairSet` and `EdgeTable.LinuxPairSet` give the
   *   pairs as sets, tied here by `NativeFamilyPairs` and `LinuxPairs`;
   * - the lists in `DistinctEdges.NativeFamilyDistinct` and
   *   `DistinctEdges.LinuxDistinct` are tied by the equality each asserts.
   */

  /** Lines 98-118: `jvmMain` depends on `nonJsMain`. */
  function SharedEdges(before: seq<Edge>): seq<Edge> {
    before + [Edge(JvmMain, NonJsMain)]
  }

  /** Lines 120-133: `jsMain` depends on `nonJvmMain`. */
  function JsEdges(before: seq<Edge>): seq<Edge> {
    before + [Edge(JsMain, NonJvmMain)]
  }

  /** Lines 136-170: the native family sets above the leaves. */
  function NativeFamilyEdges(before: seq<Edge>): seq<Edge> {
    before
    + [Edge(NativeMain, NonJsMain)] + [Edge(NativeMain, NonJvmMain)]
    + [Edge(NativeTest, CommonTest)]
    + [Edge(Sizet32Main, NativeMain)] + [Edge(Sizet64Main, NativeMain)]
    + [Edge(MingwMain, NativeMain)] + [Edge(MingwX64Main, MingwMain)] + [Edge(MingwX64Test, NativeTest)]
    + [Edge(UnixMain, NativeMain)]
    + [Edge(AppleMain, UnixMain)] + [Edge(AppleTest, NativeTest)]
  }

  /** Lines 171-207: the five loops over the apple leaves. */
  function AppleLeafEdges(before: seq<Edge>): seq<Edge> {
    var e1 := EachDependsOn(before, AppleWide64Mains, [Sizet64Main, AppleMain]);
    var e2 := EachDependsOn(e1, AppleWide64Tests, [AppleTest]);
    var e3 := EachDependsOn(e2, WatchosMains, [Sizet32Main, AppleMain]);
    var e4 := EachDependsOn(e3, TvosMains, [Sizet64Main, AppleMain]);
    EachDependsOn(e4, WatchosTests, [AppleTest])
  }

  /** Lines 209-219: linux. */
  function LinuxEdges(before: seq<Edge>): seq<Edge> {
    before
    + [Edge(LinuxMain, UnixMain)] + [Edge(LinuxMain, NativeMain)]
    + [Edge(LinuxX64Main, Sizet64Main)] + [Edge(LinuxX64Main, LinuxMain)]
    + [Edge(LinuxX64Test, NativeTest)]
  }

  /** The `dependsOn` edges of the whole script, in call order, for flags `f`. */
  function ScriptEdges(f: Flags): seq<Edge> {
    var shared := SharedEdges([]);
    var js := if f.jsEnabled then JsEdges(shared) else shared;
    if f.nativeEnabled then LinuxEdges(AppleLeafEdges(NativeFamilyEdges(js))) else js
  }

  /** Runs the `kotlin { ... }` block (lines 42-221) against a fresh container. */
  method Build(flags: Flags) returns (c: Container)
    ensures fresh(c) && c.Valid()
    ensures c.failure == None
    ensures c.targets == DeclaredTargets(flags)
    ensures forall s :: s in c.nodes <==> Declared(s, flags)
    ensures c.edges == ScriptEdges(flags)
    ensures c.srcDirs == ScriptSrcDirs
  {
    c := new Container();
    DeclareTargets(c, flags);
    ConfigureShared(c, flags);
    if flags.jsEnabled {
      ConfigureJs(c, flags);
    }
    if flags.nativeEnabled {
      NativeFamilies(c, flags);
      AppleLeaves(c, flags);
      LinuxFamily(c, flags);
    }
    ScriptNodesDeclared(flags);
  }

  /** The sets registered once `targets` are declared: the common pair and each target's pair. */
  function Registered(targets: seq<Platform>): set<SourceSet> {
    if targets == [] then {CommonMain, CommonTest}
    else Registered(targets[..|targets| - 1]) + DefaultSets(targets[|targets| - 1])
  }

  /** A source set is registered exactly when it is common or belongs to a declared target. */
  lemma {:induction false} InRegistered(s: SourceSet, targets: seq<Platform>)
    ensures s in Registered(targets) <==> s.platform == Common || s.platform in targets
    decreases |targets|
  {
    assert s == SourceSet(s.platform, s.role);
    if targets == [] {
      match s.role
      case Main =>
      case Test =>
    } else {
      var init := targets[..|targets| - 1];
      InRegistered(s, init);
      assert targets == init + [targets[|targets| - 1]];
      match s.role
      case Main =>
      case Test =>
    }
  }

  /** Declaring one more target adds exactly its default pair. */
  lemma RegisteredAppend(targets: seq<Platform>, p: Platform)
    ensures Registered(targets + [p]) == Registered(targets) + DefaultSets(p)
  {
    assert (targets + [p])[..|targets|] == targets;
  }

  /** The targets the script declares are the target platforms whose flag is on. */
  lemma DeclaredTargetsExactly(p: Platform, f: Flags)
    ensures p in DeclaredTargets(f) <==> IsTarget(p) && Open(GateOf(p), f)
  {
  }

  /** Whether `s` is registered once the targets for flags `f` are declared. */
  lemma RegisteredByFlags(s: SourceSet, f: Flags)
    ensures s in Registered(DeclaredTargets(f)) <==>
      s.platform == Common || (IsTarget(s.platform) && Open(GateOf(s.platform), f))
  {
    InRegistered(s, DeclaredTargets(f));
    DeclaredTargetsExactly(s.platform, f);
  }

  /*
   * The nodes after each block of the `sourceSets` block, in the order it
   * creates them.
   */

  function SharedNodes(f: Flags): set<SourceSet> {
    Registered(DeclaredTargets(f)) + {NonJsMain} + {NonJvmMain}
  }

  function NativeFamilyNodes(f: Flags): set<SourceSet> {
    SharedNodes(f) + {NativeMain} + {NativeTest} + {Sizet32Main} + {Sizet64Main} + {MingwMain}
    + {UnixMain} + {AppleMain} + {AppleTest}
  }

  function ScriptNodes(f: Flags): set<SourceSet> {
    if f.nativeEnabled then NativeFamilyNodes(f) + {LinuxMain} else SharedNodes(f)
  }

  /** What the script registers is exactly the declared sets of the model. */
  lemma ScriptNodesDeclared(f: Flags)
    ensures forall s :: s in ScriptNodes(f) <==> Declared(s, f)
  {
    forall s ensures s in ScriptNodes(f) <==> Declared(s, f) {
      InRegistered(s, DeclaredTargets(f));
      DeclaredTargetsExactly(s.platform, f);
      NodeOrigins(s, f);
    }
  }

  /** Where each declared source set comes from: the plugin, a target, or a `by creating`. */
  lemma NodeOrigins(s: SourceSet, f: Flags)
    ensures Declared(s, f) <==>
      s.platform == Common || (IsTarget(s.platform) && Open(GateOf(s.platform), f))
      || s == NonJsMain || s == NonJvmMain || (f.nativeEnabled && s in NativeCreated)
  {
  }

  /** One target declaration, keeping the registered sets in step with the targets. */
  method Declare(c: Container, p: Platform)
    requires c.Valid() && c.failure == None && c.nodes == Registered(c.targets)
    modifies c
    ensures c.Valid() && c.failure == None && c.edges == old(c.edges) && c.srcDirs == old(c.srcDirs)
    ensures c.targets == old(c.targets) + [p] && c.nodes == Registered(c.targets)
  {
    RegisteredAppend(c.targets, p);
    c.DeclareTarget(p);
  }

  /** Lines 43-76: `jvm`, then `js` and the native targets under their flags. */
  method DeclareTargets(c: Container, flags: Flags)
    requires c.Valid() && c.failure == None && c.targets == [] && c.edges == []
    requires c.nodes == {CommonMain, CommonTest}
    modifies c
    ensures c.Valid() && c.failure == None && c.edges == [] && c.srcDirs == old(c.srcDirs)
    ensures c.targets == DeclaredTargets(flags)
    ensures c.nodes == Registered(c.targets)
  {
    Declare(c, Jvm);
    if flags.jsEnabled {
      Declare(c, Js);
    }
    if flags.nativeEnabled {
      Declare(c, IosX64);
      Declare(c, IosArm64);
      Declare(c, WatchosArm32);
      Declare(c, WatchosArm64);
      Declare(c, WatchosX86);
      Declare(c, TvosArm64);
      Declare(c, TvosX64);
      Declare(c, LinuxX64);
      Declare(c, MacosX64);
      Declare(c, MingwX64);
    }
  }

  /** The sets lines 84-118 look up are registered; those they create are not. */
  lemma SharedFacts(f: Flags)
    ensures var n := Registered(DeclaredTargets(f));
      CommonMain in n && CommonTest in n && JvmMain in n && JvmTest in n && NonJsMain !in n && NonJvmMain !in n
  {
    RegisteredByFlags(CommonMain, f);
    RegisteredByFlags(CommonTest, f);
    RegisteredByFlags(JvmMain, f);
    RegisteredByFlags(JvmTest, f);
    RegisteredByFlags(NonJsMain, f);
    RegisteredByFlags(NonJvmMain, f);
  }

  /** Lines 84-118: common, `nonJsMain`, `nonJvmMain` and jvm, present under every flag setting. */
  method ConfigureShared(c: Container, flags: Flags)
    requires c.Valid() && c.failure == None && c.edges == [] && c.srcDirs == []
    requires c.nodes == Registered(DeclaredTargets(flags))
    modifies c
    ensures c.Valid() && c.failure == None && c.targets == old(c.targets)
    ensures c.nodes == SharedNodes(flags)
    ensures c.edges == SharedEdges([])
    ensures c.srcDirs == ScriptSrcDirs
  {
    SharedFacts(flags);
    c.Getting(CommonMain);
    c.Getting(CommonTest);
    c.Creating(NonJsMain);
    c.Creating(NonJvmMain);
    c.AddSrcDir(NonJvmMain, HashFunctionsDir);
    c.Getting(JvmMain);
    c.DependsOn(JvmMain, NonJsMain);
    c.Getting(JvmTest);
    c.AddSrcDir(JvmTest, HashFunctionsDir);
  }

  /** Lines 120-133: only runs when `kmpJsEnabled`. */
  method ConfigureJs(c: Container, flags: Flags)
    requires c.Valid() && c.failure == None
    requires flags.jsEnabled && c.nodes == SharedNodes(flags)
    modifies c
    ensures c.Valid() && c.failure == None
    ensures c.targets == old(c.targets) && c.nodes == old(c.nodes) && c.srcDirs == old(c.srcDirs)
    ensures c.edges == JsEdges(old(c.edges))
  {
    RegisteredByFlags(JsMain, flags);
    RegisteredByFlags(JsTest, flags);
    c.Getting(JsMain);
    c.DependsOn(JsMain, NonJvmMain);
    c.Getting(JsTest);
  }

  /** The sets lines 136-170 look up are registered; those they create are not. */
  lemma NativeFamilyFacts(f: Flags)
    requires f.nativeEnabled
    ensures var n := SharedNodes(f);
      CommonTest in n && NonJsMain in n && NonJvmMain in n && MingwX64Main in n && MingwX64Test in n
      && NativeMain !in n && NativeTest !in n && Sizet32Main !in n && Sizet64Main !in n
      && MingwMain !in n && UnixMain !in n && AppleMain !in n && AppleTest !in n
  {
    RegisteredByFlags(CommonTest, f);
    RegisteredByFlags(MingwX64Main, f);
    RegisteredByFlags(MingwX64Test, f);
    RegisteredByFlags(NativeMain, f);
    RegisteredByFlags(NativeTest, f);
    RegisteredByFlags(Sizet32Main, f);
    RegisteredByFlags(Sizet64Main, f);
    RegisteredByFlags(MingwMain, f);
    RegisteredByFlags(UnixMain, f);
    RegisteredByFlags(AppleMain, f);
    RegisteredByFlags(AppleTest, f);
  }

  /** Lines 136-170, the first part of the `kmpNativeEnabled` block. */
  method NativeFamilies(c: Container, flags: Flags)
    requires c.Valid() && c.failure == None
    requires flags.nativeEnabled && c.nodes == SharedNodes(flags)
    modifies c
    ensures c.Valid() && c.failure == None
    ensures c.targets == old(c.targets) && c.srcDirs == old(c.srcDirs)
    ensures c.nodes == NativeFamilyNodes(flags)
    ensures c.edges == NativeFamilyEdges(old(c.edges))
  {
    NativeBaseBlock(c, flags);
    MingwBlock(c, flags);
    UnixAppleBlock(c, flags);
  }

  /** Lines 135-149: nativeMain, nativeTest and the two pointer-size sets. */
  method NativeBaseBlock(c: Container, flags: Flags)
    requires c.Valid() && c.failure == None
    requires flags.nativeEnabled && c.nodes == SharedNodes(flags)
    modifies c
    ensures c.Valid() && c.failure == None
    ensures c.targets == old(c.targets) && c.srcDirs == old(c.srcDirs)
    ensures c.nodes == SharedNodes(flags) + {NativeMain} + {NativeTest} + {Sizet32Main} + {Sizet64Main}
    ensures c.edges == old(c.edges)
      + [Edge(NativeMain, NonJsMain)] + [Edge(NativeMain, NonJvmMain)]
      + [Edge(NativeTest, CommonTest)]
      + [Edge(Sizet32Main, NativeMain)] + [Edge(Sizet64Main, NativeMain)]
  {
    NativeFamilyFacts(flags);
    Create2(c, NativeMain, NonJsMain, NonJvmMain);
    Create1(c, NativeTest, CommonTest);
    Create1(c, Sizet32Main, NativeMain);
    Create1(c, Sizet64Main, NativeMain);
  }

  /** Lines 151-159: mingwMain and the mingwX64 sets under it. */
  method MingwBlock(c: Container, flags: Flags)
    requires c.Valid() && c.failure == None
    requires flags.nativeEnabled && c.nodes == SharedNodes(flags) + {NativeMain} + {NativeTest} + {Sizet32Main} + {Sizet64Main}
    modifies c
    ensures c.Valid() && c.failure == None
    ensures c.targets == old(c.targets) && c.srcDirs == old(c.srcDirs)
    ensures c.nodes == old(c.nodes) + {MingwMain}
    ensures c.edges == old(c.edges)
      + [Edge(MingwMain, NativeMain)] + [Edge(MingwX64Main, MingwMain)] + [Edge(MingwX64Test, NativeTest)]
  {
    NativeFamilyFacts(flags);
    Create1(c, MingwMain, NativeMain);
    Get1(c, MingwX64Main, MingwMain);
    Get1(c, MingwX64Test, NativeTest);
  }

  /** Lines 161-170: unixMain, and appleMain and appleTest. */
  method UnixAppleBlock(c: Container, flags: Flags)
    requires c.Valid() && c.failure == None
    requires flags.nativeEnabled
    requires c.nodes == SharedNodes(flags) + {NativeMain} + {NativeTest} + {Sizet32Main} + {Sizet64Main} + {MingwMain}
    modifies c
    ensures c.Valid() && c.failure == None
    ensures c.targets == old(c.targets) && c.srcDirs == old(c.srcDirs)
    ensures c.nodes == old(c.nodes) + {UnixMain} + {AppleMain} + {AppleTest}
    ensures c.edges == old(c.edges) + [Edge(UnixMain, NativeMain)] + [Edge(AppleMain, UnixMain)] + [Edge(AppleTest, NativeTest)]
  {
    NativeFamilyFacts(flags);
    Create1(c, UnixMain, NativeMain);
    Create1(c, AppleMain, UnixMain);
    Create1(c, AppleTest, NativeTest);
  }

  /** `val s by creating { dependsOn(p) }`. */
  method Create1(c: Container, s: SourceSet, p: SourceSet)
    requires c.Valid() && c.failure == None && s !in c.nodes && p in c.nodes
    modifies c
    ensures c.Valid() && c.failure == None
    ensures c.targets == old(c.targets) && c.srcDirs == old(c.srcDirs)
    ensures c.nodes == old(c.nodes) + {s} && c.edges == old(c.edges) + [Edge(s, p)]
  {
    c.Creating(s);
    c.DependsOn(s, p);
  }

  /** `val s by creating { dependsOn(p); dependsOn(q) }`. */
  method Create2(c: Container, s: SourceSet, p: SourceSet, q: SourceSet)
    requires c.Valid() && c.failure == None && s !in c.nodes && p in c.nodes && q in c.nodes
    modifies c
    ensures c.Valid() && c.failure == None
    ensures c.targets == old(c.targets) && c.srcDirs == old(c.srcDirs)
    ensures c.nodes == old(c.nodes) + {s} && c.edges == old(c.edges) + [Edge(s, p)] + [Edge(s, q)]
  {
    c.Creating(s);
    c.DependsOn(s, p);
    c.DependsOn(s, q);
  }

  /** `val s by getting { dependsOn(p) }`. */
  method Get1(c: Container, s: SourceSet, p: SourceSet)
    requires c.Valid() && c.failure == None && s in c.nodes && p in c.nodes
    modifies c
    ensures c.Valid() && c.failure == None
    ensures c.targets == old(c.targets) && c.srcDirs == old(c.srcDirs) && c.nodes == old(c.nodes)
    ensures c.edges == old(c.edges) + [Edge(s, p)]
  {
    c.Getting(s);
    c.DependsOn(s, p);
  }

  /** `val s by getting { dependsOn(p); dependsOn(q) }`. */
  method Get2(c: Container, s: SourceSet, p: SourceSet, q: SourceSet)
    requires c.Valid() && c.failure == None && s in c.nodes && p in c.nodes && q in c.nodes
    modifies c
    ensures c.Valid() && c.failure == None
    ensures c.targets == old(c.targets) && c.srcDirs == old(c.srcDirs) && c.nodes == old(c.nodes)
    ensures c.edges == old(c.edges) + [Edge(s, p)] + [Edge(s, q)]
  {
    c.Getting(s);
    c.DependsOn(s, p);
    c.DependsOn(s, q);
  }

  lemma AppleFacts(f: Flags)
    requires f.nativeEnabled
    ensures var n := NativeFamilyNodes(f);
      IosX64Main in n && IosArm64Main in n && MacosX64Main in n
      && IosX64Test in n && IosArm64Test in n && MacosX64Test in n
      && WatchosArm32Main in n && WatchosArm64Main in n && WatchosX86Main in n
      && WatchosArm32Test in n && WatchosArm64Test in n && WatchosX86Test in n
      && TvosArm64Main in n && TvosX64Main in n
  {
    RegisteredByFlags(IosX64Main, f);
    RegisteredByFlags(IosArm64Main, f);
    RegisteredByFlags(MacosX64Main, f);
    RegisteredByFlags(IosX64Test, f);
    RegisteredByFlags(IosArm64Test, f);
    RegisteredByFlags(MacosX64Test, f);
    RegisteredByFlags(WatchosArm32Main, f);
    RegisteredByFlags(WatchosArm64Main, f);
    RegisteredByFlags(WatchosX86Main, f);
    RegisteredByFlags(WatchosArm32Test, f);
    RegisteredByFlags(WatchosArm64Test, f);
    RegisteredByFlags(WatchosX86Test, f);
    RegisteredByFlags(TvosArm64Main, f);
    RegisteredByFlags(TvosX64Main, f);
  }

  /** Lines 171-207 of the `kmpNativeEnabled` block: the apple leaves and their five loops. */
  method AppleLeaves(c: Container, flags: Flags)
    requires c.Valid() && c.failure == None
    requires flags.nativeEnabled && c.nodes == NativeFamilyNodes(flags)
    modifies c
    ensures c.Valid() && c.failure == None
    ensures c.targets == old(c.targets) && c.srcDirs == old(c.srcDirs) && c.nodes == old(c.nodes)
    ensures c.edges == AppleLeafEdges(old(c.edges))
  {
    AppleWide64MainsBlock(c, flags);
    AppleWide64TestsBlock(c, flags);
    WatchosMainsBlock(c, flags);
    TvosMainsBlock(c, flags);
    WatchosTestsBlock(c, flags);
  }

  /** Lines 171-177: look up `iosX64Main`, `iosArm64Main`, `macosX64Main`, then loop over them. */
  method AppleWide64MainsBlock(c: Container, flags: Flags)
    requires c.Valid() && c.failure == None
    requires flags.nativeEnabled && c.nodes == NativeFamilyNodes(flags)
    modifies c
    ensures c.Valid() && c.failure == None
    ensures c.targets == old(c.targets) && c.srcDirs == old(c.srcDirs) && c.nodes == old(c.nodes)
    ensures c.edges == EachDependsOn(old(c.edges), AppleWide64Mains, [Sizet64Main, AppleMain])
  {
    AppleFacts(flags);
    c.Getting(IosX64Main);
    c.Getting(IosArm64Main);
    c.Getting(MacosX64Main);
    ForEachDependsOn2(c, AppleWide64Mains, Sizet64Main, AppleMain);
  }

  /** Lines 179-184: look up `iosX64Test`, `iosArm64Test`, `macosX64Test`, then loop over them. */
  method AppleWide64TestsBlock(c: Container, flags: Flags)
    requires c.Valid() && c.failure == None
    requires flags.nativeEnabled && c.nodes == NativeFamilyNodes(flags)
    modifies c
    ensures c.Valid() && c.failure == None
    ensures c.targets == old(c.targets) && c.srcDirs == old(c.srcDirs) && c.nodes == old(c.nodes)
    ensures c.edges == EachDependsOn(old(c.edges), AppleWide64Tests, [AppleTest])
  {
    AppleFacts(flags);
    c.Getting(IosX64Test);
    c.Getting(IosArm64Test);
    c.Getting(MacosX64Test);
    ForEachDependsOn1(c, AppleWide64Tests, AppleTest);
  }

  /** Lines 186-193: look up `watchosArm32Main`, `watchosArm64Main`, `watchosX86Main`, then loop over them. */
  method WatchosMainsBlock(c: Container, flags: Flags)
    requires c.Valid() && c.failure == None
    requires flags.nativeEnabled && c.nodes == NativeFamilyNodes(flags)
    modifies c
    ensures c.Valid() && c.failure == None
    ensures c.targets == old(c.targets) && c.srcDirs == old(c.srcDirs) && c.nodes == old(c.nodes)
    ensures c.edges == EachDependsOn(old(c.edges), WatchosMains, [Sizet32Main, AppleMain])
  {
    AppleFacts(flags);
    c.Getting(WatchosArm32Main);
    c.Getting(WatchosArm64Main);
    c.Getting(WatchosX86Main);
    ForEachDependsOn2(c, WatchosMains, Sizet32Main, AppleMain);
  }

  /** Lines 195-200: look up `tvosArm64Main`, `tvosX64Main`, then loop over them. */
  method TvosMainsBlock(c: Container, flags: Flags)
    requires c.Valid() && c.failure == None
    requires flags.nativeEnabled && c.nodes == NativeFamilyNodes(flags)
    modifies c
    ensures c.Valid() && c.failure == None
    ensures c.targets == old(c.targets) && c.srcDirs == old(c.srcDirs) && c.nodes == old(c.nodes)
    ensures c.edges == EachDependsOn(old(c.edges), TvosMains, [Sizet64Main, AppleMain])
  {
    AppleFacts(flags);
    c.Getting(TvosArm64Main);
    c.Getting(TvosX64Main);
    ForEachDependsOn2(c, TvosMains, Sizet64Main, AppleMain);
  }

  /** Lines 202-207: look up `watchosArm32Test`, `watchosArm64Test`, `watchosX86Test`, then loop over them. */
  method WatchosTestsBlock(c: Container, flags: Flags)
    requires c.Valid() && c.failure == None
    requires flags.nativeEnabled && c.nodes == NativeFamilyNodes(flags)
    modifies c
    ensures c.Valid() && c.failure == None
    ensures c.targets == old(c.targets) && c.srcDirs == old(c.srcDirs) && c.nodes == old(c.nodes)
    ensures c.edges == EachDependsOn(old(c.edges), WatchosTests, [AppleTest])
  {
    AppleFacts(flags);
    c.Getting(WatchosArm32Test);
    c.Getting(WatchosArm64Test);
    c.Getting(WatchosX86Test);
    ForEachDependsOn1(c, WatchosTests, AppleTest);
  }

  /** `for (it in children) { it.dependsOn(parent) }` (lines 182-184, 205-207). */
  method ForEachDependsOn1(c: Container, children: seq<SourceSet>, parent: SourceSet)
    requires c.Valid() && c.failure == None
    requires (forall s :: s in children ==> s in c.nodes) && parent in c.nodes
    modifies c
    ensures c.Valid() && c.failure == None
    ensures c.targets == old(c.targets) && c.nodes == old(c.nodes) && c.srcDirs == old(c.srcDirs)
    ensures c.edges == EachDependsOn(old(c.edges), children, [parent])
  {
    for i := 0 to |children|
      invariant c.Valid() && c.failure == None
      invariant c.targets == old(c.targets) && c.nodes == old(c.nodes) && c.srcDirs == old(c.srcDirs)
      invariant c.edges == EachDependsOn(old(c.edges), children[..i], [parent])
    {
      var it := children[i];
      ghost var prev := c.edges;
      c.DependsOn(it, parent);
      assert children[..i + 1][..i] == children[..i];
      assert [parent][..0] == [];
      assert DependsOnAll(prev, it, [parent]) == prev + [Edge(it, parent)];
    }
    assert children[..|children|] == children;
  }

  /** `for (it in children) { it.dependsOn(first); it.dependsOn(second) }` (lines 174-177, 189-193, 197-200). */
  method ForEachDependsOn2(c: Container, children: seq<SourceSet>, first: SourceSet, second: SourceSet)
    requires c.Valid() && c.failure == None
    requires (forall s :: s in children ==> s in c.nodes) && first in c.nodes && second in c.nodes
    modifies c
    ensures c.Valid() && c.failure == None
    ensures c.targets == old(c.targets) && c.nodes == old(c.nodes) && c.srcDirs == old(c.srcDirs)
    ensures c.edges == EachDependsOn(old(c.edges), children, [first, second])
  {
    for i := 0 to |children|
      invariant c.Valid() && c.failure == None
      invariant c.targets == old(c.targets) && c.nodes == old(c.nodes) && c.srcDirs == old(c.srcDirs)
      invariant c.edges == EachDependsOn(old(c.edges), children[..i], [first, second])
    {
      var it := children[i];
      ghost var prev := c.edges;
      c.DependsOn(it, first);
      c.DependsOn(it, second);
      assert children[..i + 1][..i] == children[..i];
      assert [first, second][..1] == [first] && [first][..0] == [];
      assert DependsOnAll(prev, it, [first]) == prev + [Edge(it, first)];
      assert DependsOnAll(prev, it, [first, second]) == prev + [Edge(it, first)] + [Edge(it, second)];
    }
    assert children[..|children|] == children;
  }

  /** Lines 209-219, the end of the `kmpNativeEnabled` block. */
  method LinuxFamily(c: Container, flags: Flags)
    requires c.Valid() && c.failure == None
    requires flags.nativeEnabled && c.nodes == NativeFamilyNodes(flags)
    modifies c
    ensures c.Valid() && c.failure == None
    ensures c.targets == old(c.targets) && c.srcDirs == old(c.srcDirs)
    ensures c.nodes == ScriptNodes(flags)
    ensures c.edges == LinuxEdges(old(c.edges))
  {
    RegisteredByFlags(LinuxX64Main, flags);
    RegisteredByFlags(LinuxX64Test, flags);
    RegisteredByFlags(LinuxMain, flags);
    Create2(c, LinuxMain, UnixMain, NativeMain);
    Get2(c, LinuxX64Main, Sizet64Main, LinuxMain);
    Get1(c, LinuxX64Test, NativeTest);
  }
}
