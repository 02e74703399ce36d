/**
 * What the hierarchy comment at the top of okio/build.gradle.kts and the
 * comments inside its `sourceSets` block promise, proved of the edges the
 * script adds, for every setting of the two flags.
 */
module HierarchyClaims {
  import opened SourceSetNames
  import opened DependsOnGraph
  import opened SourceSetContainer
  import opened OkioBuildScript
  import opened EdgeTable
  import opened DistinctEdges

  /*
   * Every claim below is stated for any edge sequence `g` with the table's
   * pairs; `ScriptIsTable` shows that the script's own edges are one.
   */

  /*
   * Shape: every edge joins two declared source sets of the same role and
   * goes to a strictly lower level of the hierarchy.
   */

  /** The level of a source set in the hierarchy; every edge points to a lower level. */
  function Depth(s: SourceSet): nat {
    match s.platform
    case Common => 0
    case NonJs | NonJvm => 1
    case Jvm | Js | Native => 2
    case Sizet32 | Sizet64 | Mingw | Unix => 3
    case Apple | Linux | MingwX64 => 4
    case _ => 5
  }

  lemma TableSound(x: SourceSet, f: Flags)
    ensures forall p :: p in ParentTable(x, f) ==>
              p.role == x.role && Depth(p) < Depth(x) && Declared(x, f) && Declared(p, f)
  {
    assert x == SourceSet(x.platform, x.role);
    match x.platform
    case Common =>
    case Jvm =>
    case Js =>
    case NonJs =>
    case NonJvm =>
    case Native =>
    case Sizet32 =>
    case Sizet64 =>
    case Mingw =>
    case MingwX64 =>
    case Unix =>
    case Apple =>
    case Linux =>
    case IosX64 =>
    case IosArm64 =>
    case MacosX64 =>
    case WatchosArm32 =>
    case WatchosArm64 =>
    case WatchosX86 =>
    case TvosArm64 =>
    case TvosX64 =>
    case LinuxX64 =>
  }

  /** An edge of the script joins two source sets that exist, of one role, downward. */
  lemma EdgeSound(g: seq<Edge>, f: Flags, e: Edge)
    requires TableGraph(g, f)
    requires e in g
    ensures Declared(e.child, f) && Declared(e.parent, f)
    ensures e.child.role == e.parent.role && Depth(e.parent) < Depth(e.child)
  {
    TableSound(e.child, f);
  }

  lemma GraphRanked(g: seq<Edge>, f: Flags)
    requires TableGraph(g, f)
    ensures Ranked(g, Depth)
  {
    forall e | e in g ensures Depth(e.parent) < Depth(e.child) {
      EdgeSound(g, f, e);
    }
  }

  /** The `dependsOn` graph has no cycle: no source set is reachable from its own parents. */
  lemma GraphAcyclic(g: seq<Edge>, f: Flags, s: SourceSet, n: nat)
    requires TableGraph(g, f)
    ensures s !in Closure(g, Parents(g, s), n)
  {
    GraphRanked(g, f);
    RankedAcyclic(g, Depth, s, n);
  }

  /** Main source sets only see Main source sets, and Test ones only Test ones. */
  lemma RolesNeverCross(g: seq<Edge>, f: Flags, s: SourceSet)
    requires TableGraph(g, f)
    ensures forall x :: x in Ancestors(g, s) ==> x.role == s.role
  {
    forall e | e in g && e.child.role == s.role ensures e.parent.role == s.role {
      EdgeSound(g, f, e);
    }
    ClosureKeeps(g, {s}, (x: SourceSet) => x.role == s.role, |g|);
  }

  /*
   * Flags: a closed gate leaves no trace, while the shared source sets are always there.
   */

  /** With `kmpJsEnabled` or `kmpNativeEnabled` off, its source sets are neither declared nor joined. */
  lemma ClosedGateLeavesNoTrace(g: seq<Edge>, f: Flags, s: SourceSet)
    requires TableGraph(g, f)
    requires !Open(GateOf(s.platform), f)
    ensures !Declared(s, f)
    ensures forall e :: e in g ==> e.child != s && e.parent != s
  {
    forall e | e in g ensures e.child != s && e.parent != s {
      EdgeSound(g, f, e);
    }
  }

  /** commonMain, commonTest, jvmMain, jvmTest, nonJsMain and nonJvmMain exist under any flags. */
  lemma SharedAlwaysPresent(g: seq<Edge>, f: Flags)
    requires TableGraph(g, f)
    ensures Declared(CommonMain, f) && Declared(CommonTest, f) && Declared(JvmMain, f) && Declared(JvmTest, f)
    ensures Declared(NonJsMain, f) && Declared(NonJvmMain, f)
    ensures Edge(JvmMain, NonJsMain) in g
  {
  }

  /*
   * Platforms.
   */

  /** JVM code sees `nonJs` and not `nonJvm`; JS code the other way round. */
  lemma PlatformExclusion(g: seq<Edge>, f: Flags)
    requires TableGraph(g, f)
    ensures NonJsMain in Ancestors(g, JvmMain) && NonJvmMain !in Ancestors(g, JvmMain)
    ensures f.jsEnabled ==> NonJvmMain in Ancestors(g, JsMain) && NonJsMain !in Ancestors(g, JsMain)
  {
    AncestorsAreTable(g, f, JvmMain);
    AncestorsAreTable(g, f, JsMain);
  }

  /** Every native target's Main sees nativeMain, nonJsMain and nonJvmMain. */
  lemma NativeLeavesSeeNative(g: seq<Edge>, f: Flags, p: Platform)
    requires TableGraph(g, f)
    requires f.nativeEnabled && IsNativeLeaf(p)
    ensures {NativeMain, NonJsMain, NonJvmMain} <= Ancestors(g, SourceSet(p, Main))
  {
    AncestorsAreTable(g, f, SourceSet(p, Main));
  }

  /**
   * The pointer-size split: the watchOS targets see sizet32 and not sizet64; the
   * other unix targets see sizet64 and not sizet32; mingwX64 sees neither.
   */
  lemma PointerSize(g: seq<Edge>, f: Flags, p: Platform)
    requires TableGraph(g, f)
    requires f.nativeEnabled && IsNativeLeaf(p)
    ensures Sizet32Main in Ancestors(g, SourceSet(p, Main)) <==> p in {WatchosArm32, WatchosArm64, WatchosX86}
    ensures Sizet64Main in Ancestors(g, SourceSet(p, Main)) <==>
              p in {IosX64, IosArm64, MacosX64, TvosArm64, TvosX64, LinuxX64}
  {
    AncestorsAreTable(g, f, SourceSet(p, Main));
  }

  /*
   * The tree of the header comment.
   */

  /** The platforms the header comment draws. */
  predicate InDocTree(p: Platform) {
    p in {Common, Jvm, Js, Native, Unix, Apple, IosArm64, IosX64, MacosX64,
          WatchosArm32, WatchosArm64, WatchosX86, Linux, LinuxX64, Mingw, MingwX64}
  }

  /** The node a platform hangs under in the header comment. */
  function DocParent(p: Platform): Platform {
    match p
    case Unix | Mingw => Native
    case Apple | Linux => Unix
    case IosArm64 | IosX64 | MacosX64 | WatchosArm32 | WatchosArm64 | WatchosX86 => Apple
    case LinuxX64 => Linux
    case MingwX64 => Mingw
    case _ => Common
  }

  /**
   * `p` and every node above it in the header comment. The drawing is four
   * levels deep below `common`, so four steps up reach `common` from anywhere.
   */
  function DocLine(p: Platform): set<Platform> {
    var p1 := DocParent(p);
    var p2 := DocParent(p1);
    var p3 := DocParent(p2);
    {p, p1, p2, p3, DocParent(p3)}
  }

  /** The inner nodes of the drawing under `native`, each a family of targets. */
  const NativeFamilies := {Native, Unix, Mingw, Apple, Linux}

  /**
   * The apple side of the drawing: `pMain` sees the Main of a native family
   * exactly when the drawing puts that family on `p`'s line, so every apple
   * leaf reaches unix through apple and sees neither linux nor mingw.
   */
  lemma AppleFamiliesMatchDocTree(g: seq<Edge>, f: Flags, p: Platform, q: Platform)
    requires TableGraph(g, f)
    requires f.nativeEnabled && p in {Apple, IosArm64, IosX64, MacosX64, WatchosArm32, WatchosArm64, WatchosX86}
    requires q in NativeFamilies
    ensures SourceSet(q, Main) in Ancestors(g, SourceSet(p, Main)) <==> q in DocLine(p)
  {
    AncestorsAreTable(g, f, SourceSet(p, Main));
    match p
    case Apple =>
    case IosArm64 =>
    case IosX64 =>
    case MacosX64 =>
    case WatchosArm32 =>
    case WatchosArm64 =>
    case WatchosX86 =>
  }

  /**
   * The rest of the drawing under `native`: linuxX64 reaches unix through
   * linux, and mingwX64 reaches mingw but neither unix nor apple.
   */
  lemma OtherFamiliesMatchDocTree(g: seq<Edge>, f: Flags, p: Platform, q: Platform)
    requires TableGraph(g, f)
    requires f.nativeEnabled && p in {Native, Unix, Linux, LinuxX64, Mingw, MingwX64}
    requires q in NativeFamilies
    ensures SourceSet(q, Main) in Ancestors(g, SourceSet(p, Main)) <==> q in DocLine(p)
  {
    AncestorsAreTable(g, f, SourceSet(p, Main));
    match p
    case Native =>
    case Unix =>
    case Linux =>
    case LinuxX64 =>
    case Mingw =>
    case MingwX64 =>
  }

  /**
   * The two tvos targets are missing from the header comment, yet their Mains
   * get the apple and sizet64 sources. Their Test sets are never wired: they
   * see nothing, where every other apple target's Test sees appleTest.
   */
  lemma TvosOutsideDocTree(g: seq<Edge>, f: Flags, p: Platform)
    requires TableGraph(g, f)
    requires f.nativeEnabled && p in {TvosArm64, TvosX64}
    ensures !InDocTree(p)
    ensures {AppleMain, Sizet64Main} <= Ancestors(g, SourceSet(p, Main))
    ensures Ancestors(g, SourceSet(p, Test)) == {SourceSet(p, Test)}
    ensures forall q :: q in {IosX64, IosArm64, MacosX64, WatchosArm32, WatchosArm64, WatchosX86} ==>
              AppleTest in Ancestors(g, SourceSet(q, Test))
  {
    AncestorsAreTable(g, f, SourceSet(p, Main));
    AncestorsAreTable(g, f, SourceSet(p, Test));
    forall q | q in {IosX64, IosArm64, MacosX64, WatchosArm32, WatchosArm64, WatchosX86}
      ensures AppleTest in Ancestors(g, SourceSet(q, Test))
    {
      AncestorsAreTable(g, f, SourceSet(q, Test));
    }
  }

  /**
   * `linuxMain.dependsOn(nativeMain)` adds nothing: linuxMain already sees
   * nativeMain through unixMain.
   */
  lemma LinuxNativeEdgeRedundant(g: seq<Edge>, f: Flags)
    requires TableGraph(g, f)
    requires f.nativeEnabled
    ensures Edge(LinuxMain, NativeMain) in g
    ensures NativeMain in Ancestors(g, UnixMain)
    ensures Ancestors(g, LinuxMain) == {LinuxMain} + Ancestors(g, UnixMain)
  {
    AncestorsAreTable(g, f, LinuxMain);
    AncestorsAreTable(g, f, UnixMain);
  }

  /*
   * The hashFunctions sources.
   */

  /** The source sets that `path` is attached to. */
  function Owners(dirs: seq<SrcDir>, path: string): (r: set<SourceSet>)
    ensures forall s :: s in r <==> SrcDir(s, path) in dirs
  {
    if dirs == [] then {}
    else (if dirs[0].path == path then {dirs[0].owner} else {}) + Owners(dirs[1..], path)
  }

  /** `s` compiles the hashFunctions directory through one of its ancestors. */
  predicate SeesHashFunctions(g: seq<Edge>, s: SourceSet) {
    Owners(ScriptSrcDirs, HashFunctionsDir) * Ancestors(g, s) != {}
  }

  /** The directory is attached to nonJvmMain and jvmTest and nowhere else. */
  lemma HashFunctionsOwners()
    ensures Owners(ScriptSrcDirs, HashFunctionsDir) == {NonJvmMain, JvmTest}
  {
  }

  /**
   * hashFunctions ships as main code on every declared non-JVM target and as
   * test code on the JVM: jvmMain does not see it, jvmTest does.
   */
  lemma HashFunctionsPlacement(g: seq<Edge>, f: Flags, p: Platform)
    requires TableGraph(g, f)
    requires IsTarget(p) && Open(GateOf(p), f)
    ensures SeesHashFunctions(g, SourceSet(p, Main)) <==> p != Jvm
    ensures SeesHashFunctions(g, JvmTest)
  {
    HashFunctionsOwners();
    AncestorsAreTable(g, f, SourceSet(p, Main));
    AncestorsAreTable(g, f, JvmTest);
  }

  /**
   * The claims above apply to what the script builds: running the whole block
   * leaves an edge list with the table's pairs, whose ancestor sets are the
   * table's, in which no source set is its own proper ancestor, and which
   * holds each `dependsOn` edge once.
   */
  method BuildHierarchy(flags: Flags) returns (c: Container)
    ensures c.failure == None && TableGraph(c.edges, flags)
    ensures forall s :: Ancestors(c.edges, s) == AncestorTable(s, flags)
    ensures forall s, n: nat :: s !in Closure(c.edges, Parents(c.edges, s), n)
    ensures Distinct(c.edges)
  {
    c := Build(flags);
    ScriptIsTable(flags);
    ScriptEdgesDistinct(flags);
    forall s ensures Ancestors(c.edges, s) == AncestorTable(s, flags) {
      AncestorsAreTable(c.edges, flags, s);
    }
    forall s, n: nat ensures s !in Closure(c.edges, Parents(c.edges, s), n) {
      GraphAcyclic(c.edges, flags, s, n);
    }
  }
}
