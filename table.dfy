/**
 * The edges the build script adds, read as a table of direct parents, and the
 * exact ancestor set of every source set that follows from that table.
 */
module EdgeTable {
  import opened SourceSetNames
  import opened DependsOnGraph
  import opened OkioBuildScript

  /** `s` when the native block runs, nothing otherwise. */
  function IfNative(s: set<SourceSet>, f: Flags): set<SourceSet> {
    if f.nativeEnabled then s else {}
  }

  /**
   * The direct parents of each source set, read off the script as a table
   * rather than as the order of its calls.
   */
  function ParentTable(s: SourceSet, f: Flags): set<SourceSet> {
    match s
    case SourceSet(Jvm, Main) => {NonJsMain}
    case SourceSet(Js, Main) => if f.jsEnabled then {NonJvmMain} else {}
    case SourceSet(Native, Main) => IfNative({NonJsMain, NonJvmMain}, f)
    case SourceSet(Native, Test) => IfNative({CommonTest}, f)
    case SourceSet(Sizet32, Main) => IfNative({NativeMain}, f)
    case SourceSet(Sizet64, Main) => IfNative({NativeMain}, f)
    case SourceSet(Mingw, Main) => IfNative({NativeMain}, f)
    case SourceSet(Unix, Main) => IfNative({NativeMain}, f)
    case SourceSet(MingwX64, Main) => IfNative({MingwMain}, f)
    case SourceSet(MingwX64, Test) => IfNative({NativeTest}, f)
    case SourceSet(Apple, Main) => IfNative({UnixMain}, f)
    case SourceSet(Apple, Test) => IfNative({NativeTest}, f)
    case SourceSet(IosX64, Main) => IfNative({Sizet64Main, AppleMain}, f)
    case SourceSet(IosArm64, Main) => IfNative({Sizet64Main, AppleMain}, f)
    case SourceSet(MacosX64, Main) => IfNative({Sizet64Main, AppleMain}, f)
    case SourceSet(IosX64, Test) => IfNative({AppleTest}, f)
    case SourceSet(IosArm64, Test) => IfNative({AppleTest}, f)
    case SourceSet(MacosX64, Test) => IfNative({AppleTest}, f)
    case SourceSet(WatchosArm32, Main) => IfNative({Sizet32Main, AppleMain}, f)
    case SourceSet(WatchosArm64, Main) => IfNative({Sizet32Main, AppleMain}, f)
    case SourceSet(WatchosX86, Main) => IfNative({Sizet32Main, AppleMain}, f)
    case SourceSet(WatchosArm32, Test) => IfNative({AppleTest}, f)
    case SourceSet(WatchosArm64, Test) => IfNative({AppleTest}, f)
    case SourceSet(WatchosX86, Test) => IfNative({AppleTest}, f)
    case SourceSet(TvosArm64, Main) => IfNative({Sizet64Main, AppleMain}, f)
    case SourceSet(TvosX64, Main) => IfNative({Sizet64Main, AppleMain}, f)
    case SourceSet(Linux, Main) => IfNative({UnixMain, NativeMain}, f)
    case SourceSet(LinuxX64, Main) => IfNative({Sizet64Main, LinuxMain}, f)
    case SourceSet(LinuxX64, Test) => IfNative({NativeTest}, f)
    case _ => {}
  }

  /**
   * The pairs lines 136-170 add. `NativeFamilyPairSet` restates the edges of
   * `NativeFamilyEdges` as a set; this lemma proves the two agree.
   */
  lemma NativeFamilyPairs(before: seq<Edge>, e: Edge)
    ensures e in NativeFamilyEdges(before) <==> e in before || e in NativeFamilyPairSet
  {
  }

  const NativeFamilyPairSet := {Edge(NativeMain, NonJsMain), Edge(NativeMain, NonJvmMain), Edge(NativeTest, CommonTest),
            Edge(Sizet32Main, NativeMain), Edge(Sizet64Main, NativeMain), Edge(MingwMain, NativeMain),
            Edge(MingwX64Main, MingwMain), Edge(MingwX64Test, NativeTest), Edge(UnixMain, NativeMain),
            Edge(AppleMain, UnixMain), Edge(AppleTest, NativeTest)}

  /** The pairs the five loops of lines 171-207 add. */
  lemma AppleLeafPairs(before: seq<Edge>, e: Edge)
    ensures e in AppleLeafEdges(before) <==> e in before || AppleLeafPair(e)
  {
  }

  predicate AppleLeafPair(e: Edge) {
    || (e.child in AppleWide64Mains && e.parent in [Sizet64Main, AppleMain])
    || (e.child in AppleWide64Tests && e.parent in [AppleTest])
    || (e.child in WatchosMains && e.parent in [Sizet32Main, AppleMain])
    || (e.child in TvosMains && e.parent in [Sizet64Main, AppleMain])
    || (e.child in WatchosTests && e.parent in [AppleTest])
  }

  /**
   * The pairs lines 209-219 add. `LinuxPairSet` restates the edges of
   * `LinuxEdges` as a set; this lemma proves the two agree.
   */
  lemma LinuxPairs(before: seq<Edge>, e: Edge)
    ensures e in LinuxEdges(before) <==> e in before || e in LinuxPairSet
  {
  }

  const LinuxPairSet := {Edge(LinuxMain, UnixMain), Edge(LinuxMain, NativeMain), Edge(LinuxX64Main, Sizet64Main),
                         Edge(LinuxX64Main, LinuxMain), Edge(LinuxX64Test, NativeTest)}

  /** Membership in the script's edges, block by block. */
  predicate InBlocks(e: Edge, f: Flags) {
    || e == Edge(JvmMain, NonJsMain)
    || (f.jsEnabled && e == Edge(JsMain, NonJvmMain))
    || (f.nativeEnabled && (e in NativeFamilyPairSet || AppleLeafPair(e) || e in LinuxPairSet))
  }

  lemma ScriptEdgesInBlocks(f: Flags, e: Edge)
    ensures e in ScriptEdges(f) <==> InBlocks(e, f)
  {
    var shared := SharedEdges([]);
    var js := if f.jsEnabled then JsEdges(shared) else shared;
    NativeFamilyPairs(js, e);
    AppleLeafPairs(NativeFamilyEdges(js), e);
    LinuxPairs(AppleLeafEdges(NativeFamilyEdges(js)), e);
  }

  /** The edges of the script are exactly the pairs of the table. */
  lemma ScriptEdgesAreTable(f: Flags, e: Edge)
    ensures e in ScriptEdges(f) <==> e.parent in ParentTable(e.child, f)
  {
    ScriptEdgesInBlocks(f, e);
    BlocksAreTable(f, e);
  }

  lemma BlocksAreTable(f: Flags, e: Edge)
    ensures InBlocks(e, f) <==> e.parent in ParentTable(e.child, f)
  {
    assert e.child == SourceSet(e.child.platform, e.child.role);
    match e.child.platform
    case Common =>
    case Jvm =>
    case Js =>
    case NonJs =>
    case NonJvm =>
    case Native =>
    case Sizet32 =>
    case Sizet64 =>
    case Mingw =>
    case MingwX64 =>
    case Unix =>
    case Apple =>
    case Linux =>
    case IosX64 =>
    case IosArm64 =>
    case MacosX64 =>
    case WatchosArm32 =>
    case WatchosArm64 =>
    case WatchosX86 =>
    case TvosArm64 =>
    case TvosX64 =>
    case LinuxX64 =>
  }

  /** The script adds at least the jvm edge, and eleven more in the native block. */
  lemma ScriptEdgesLength(f: Flags)
    ensures |ScriptEdges(f)| >= if f.nativeEnabled then 12 else 1
  {
  }

  /*
   * From the table to the graph. The lemmas below hold of any edge sequence
   * whose pairs are those of the table, which keeps the script's own
   * construction out of their proofs.
   */

  /** `g` holds exactly the table's pairs, with enough edges, as the script's have, that `Ancestors` follows every table walk. */
  ghost predicate TableGraph(g: seq<Edge>, f: Flags) {
    && (forall e :: e in g <==> e.parent in ParentTable(e.child, f))
    && |g| >= (if f.nativeEnabled then 12 else 1)
  }

  lemma ScriptIsTable(f: Flags)
    ensures TableGraph(ScriptEdges(f), f)
  {
    forall e ensures e in ScriptEdges(f) <==> e.parent in ParentTable(e.child, f) {
      ScriptEdgesAreTable(f, e);
    }
    ScriptEdgesLength(f);
  }

  /** `w` steps from each source set to one of its table parents. */
  predicate TableWalk(w: seq<SourceSet>, f: Flags)
    decreases |w|
  {
    |w| <= 1 || (w[1] in ParentTable(w[0], f) && TableWalk(w[1..], f))
  }

  /** A walk along table entries is a walk in the graph. */
  lemma {:induction false} TablePath(g: seq<Edge>, f: Flags, w: seq<SourceSet>)
    requires TableGraph(g, f) && TableWalk(w, f)
    ensures IsPath(g, w)
    decreases |w|
  {
    if |w| > 1 {
      TablePath(g, f, w[1..]);
    }
  }

  /** Every source set on a short table walk from `w[0]` is an ancestor of `w[0]`. */
  lemma WalkAncestors(g: seq<Edge>, f: Flags, w: seq<SourceSet>)
    requires TableGraph(g, f) && TableWalk(w, f) && 0 < |w| <= (if f.nativeEnabled then 13 else 2)
    ensures forall k :: 0 <= k < |w| ==> w[k] in Ancestors(g, w[0])
  {
    TablePath(g, f, w);
    PathInClosure(g, w, {w[0]}, |g|);
  }

  /** A table walk extended by a child of its first source set. */
  lemma WalkCons(f: Flags, x: SourceSet, w: seq<SourceSet>)
    requires TableWalk(w, f) && 0 < |w| && w[0] in ParentTable(x, f)
    ensures TableWalk([x] + w, f)
  {
    assert ([x] + w)[1..] == w;
  }

  /** A parent in the table is an ancestor. */
  lemma Reach1(g: seq<Edge>, f: Flags, a: SourceSet, b: SourceSet)
    requires TableGraph(g, f) && b in ParentTable(a, f)
    ensures a in Ancestors(g, a) && b in Ancestors(g, a)
  {
    WalkCons(f, a, [b]);
    WalkAncestors(g, f, [a] + [b]);
  }

  /** A grandparent in the table is an ancestor. */
  lemma Reach2(g: seq<Edge>, f: Flags, a: SourceSet, b: SourceSet, c: SourceSet)
    requires TableGraph(g, f) && f.nativeEnabled && b in ParentTable(a, f) && c in ParentTable(b, f)
    ensures a in Ancestors(g, a) && b in Ancestors(g, a) && c in Ancestors(g, a)
  {
    WalkCons(f, b, [c]);
    WalkCons(f, a, [b] + [c]);
    var w := [a] + ([b] + [c]);
    assert w[0] == a && w[1] == b && w[2] == c;
    WalkAncestors(g, f, w);
  }

  /** A great-grandparent in the table is an ancestor. */
  lemma Reach3(g: seq<Edge>, f: Flags, a: SourceSet, b: SourceSet, c: SourceSet, d: SourceSet)
    requires TableGraph(g, f) && f.nativeEnabled
    requires b in ParentTable(a, f) && c in ParentTable(b, f) && d in ParentTable(c, f)
    ensures a in Ancestors(g, a) && b in Ancestors(g, a) && c in Ancestors(g, a) && d in Ancestors(g, a)
  {
    WalkCons(f, c, [d]);
    WalkCons(f, b, [c] + [d]);
    WalkCons(f, a, [b] + ([c] + [d]));
    var w := [a] + ([b] + ([c] + [d]));
    assert w[0] == a && w[1] == b && w[2] == c && w[3] == d;
    WalkAncestors(g, f, w);
  }

  /** The ancestors of `s` lie in any `t` that holds `s` and the table parents of its members. */
  lemma AncestorsWithin(g: seq<Edge>, f: Flags, s: SourceSet, t: set<SourceSet>)
    requires TableGraph(g, f)
    requires s in t && forall x :: x in t ==> ParentTable(x, f) <= t
    ensures Ancestors(g, s) <= t
  {
    ClosureWithin(g, {s}, t, |g|);
  }

  /*
   * The ancestors of every source set, group by group.
   */

  /** The full ancestor set of each source set, including itself, as the hierarchy intends it. */
  function AncestorTable(s: SourceSet, f: Flags): set<SourceSet> {
    match s
    case SourceSet(Jvm, Main) => {s, NonJsMain}
    case SourceSet(Js, Main) => if f.jsEnabled then {s, NonJvmMain} else {s}
    case SourceSet(Native, Main) => if f.nativeEnabled then {s, NonJsMain, NonJvmMain} else {s}
    case SourceSet(Native, Test) => if f.nativeEnabled then {s, CommonTest} else {s}
    case SourceSet(Sizet32, Main) | SourceSet(Sizet64, Main) | SourceSet(Mingw, Main) | SourceSet(Unix, Main) =>
      if f.nativeEnabled then {s, NativeMain, NonJsMain, NonJvmMain} else {s}
    case SourceSet(MingwX64, Main) =>
      if f.nativeEnabled then {s, MingwMain, NativeMain, NonJsMain, NonJvmMain} else {s}
    case SourceSet(Apple, Main) | SourceSet(Linux, Main) =>
      if f.nativeEnabled then {s, UnixMain, NativeMain, NonJsMain, NonJvmMain} else {s}
    case SourceSet(MingwX64, Test) | SourceSet(Apple, Test) | SourceSet(LinuxX64, Test) =>
      if f.nativeEnabled then {s, NativeTest, CommonTest} else {s}
    case SourceSet(IosX64, Main) | SourceSet(IosArm64, Main) | SourceSet(MacosX64, Main)
       | SourceSet(TvosArm64, Main) | SourceSet(TvosX64, Main) =>
      if f.nativeEnabled then {s, Sizet64Main, AppleMain, UnixMain, NativeMain, NonJsMain, NonJvmMain} else {s}
    case SourceSet(WatchosArm32, Main) | SourceSet(WatchosArm64, Main) | SourceSet(WatchosX86, Main) =>
      if f.nativeEnabled then {s, Sizet32Main, AppleMain, UnixMain, NativeMain, NonJsMain, NonJvmMain} else {s}
    case SourceSet(IosX64, Test) | SourceSet(IosArm64, Test) | SourceSet(MacosX64, Test)
       | SourceSet(WatchosArm32, Test) | SourceSet(WatchosArm64, Test) | SourceSet(WatchosX86, Test) =>
      if f.nativeEnabled then {s, AppleTest, NativeTest, CommonTest} else {s}
    case SourceSet(LinuxX64, Main) =>
      if f.nativeEnabled then {s, Sizet64Main, LinuxMain, UnixMain, NativeMain, NonJsMain, NonJvmMain} else {s}
    case _ => {s}
  }

  /** A source set with no table parents is its own only ancestor. */
  lemma RootAncestors(g: seq<Edge>, f: Flags, s: SourceSet)
    requires TableGraph(g, f) && ParentTable(s, f) == {}
    ensures Ancestors(g, s) == {s}
  {
    AncestorsWithin(g, f, s, {s});
    ClosureGrows(g, {s}, |g|);
  }

  /** A source set whose one parent has none: jvmMain, jsMain and nativeTest. */
  lemma RootChildAncestors(g: seq<Edge>, f: Flags, s: SourceSet, p: SourceSet)
    requires TableGraph(g, f) && ParentTable(s, f) == {p} && ParentTable(p, f) == {}
    ensures Ancestors(g, s) == {s, p}
  {
    AncestorsWithin(g, f, s, {s, p});
    Reach1(g, f, s, p);
  }

  lemma NativeMainAncestors(g: seq<Edge>, f: Flags)
    requires TableGraph(g, f) && f.nativeEnabled
    ensures Ancestors(g, NativeMain) == {NativeMain, NonJsMain, NonJvmMain}
  {
    AncestorsWithin(g, f, NativeMain, {NativeMain, NonJsMain, NonJvmMain});
    Reach1(g, f, NativeMain, NonJsMain);
    Reach1(g, f, NativeMain, NonJvmMain);
  }

  /** sizet32Main, sizet64Main, mingwMain and unixMain: directly under nativeMain. */
  lemma NativeChildAncestors(g: seq<Edge>, f: Flags, s: SourceSet)
    requires TableGraph(g, f) && f.nativeEnabled && ParentTable(s, f) == {NativeMain}
    ensures Ancestors(g, s) == {s, NativeMain, NonJsMain, NonJvmMain}
  {
    AncestorsWithin(g, f, s, {s, NativeMain, NonJsMain, NonJvmMain});
    Reach2(g, f, s, NativeMain, NonJsMain);
    Reach2(g, f, s, NativeMain, NonJvmMain);
  }

  /** mingwX64Test, linuxX64Test and appleTest: directly under nativeTest. */
  lemma NativeTestChildAncestors(g: seq<Edge>, f: Flags, s: SourceSet)
    requires TableGraph(g, f) && f.nativeEnabled && ParentTable(s, f) == {NativeTest}
    ensures Ancestors(g, s) == {s, NativeTest, CommonTest}
  {
    AncestorsWithin(g, f, s, {s, NativeTest, CommonTest});
    Reach2(g, f, s, NativeTest, CommonTest);
  }

  lemma MingwX64MainAncestors(g: seq<Edge>, f: Flags)
    requires TableGraph(g, f) && f.nativeEnabled
    ensures Ancestors(g, MingwX64Main) == {MingwX64Main, MingwMain, NativeMain, NonJsMain, NonJvmMain}
  {
    AncestorsWithin(g, f, MingwX64Main, {MingwX64Main, MingwMain, NativeMain, NonJsMain, NonJvmMain});
    Reach3(g, f, MingwX64Main, MingwMain, NativeMain, NonJsMain);
    Reach3(g, f, MingwX64Main, MingwMain, NativeMain, NonJvmMain);
  }

  /** appleMain and linuxMain: under unixMain. */
  lemma UnixChildAncestors(g: seq<Edge>, f: Flags, s: SourceSet)
    requires TableGraph(g, f) && f.nativeEnabled
    requires ParentTable(s, f) == {UnixMain} || ParentTable(s, f) == {UnixMain, NativeMain}
    ensures Ancestors(g, s) == {s, UnixMain, NativeMain, NonJsMain, NonJvmMain}
  {
    AncestorsWithin(g, f, s, {s, UnixMain, NativeMain, NonJsMain, NonJvmMain});
    Reach3(g, f, s, UnixMain, NativeMain, NonJsMain);
    Reach3(g, f, s, UnixMain, NativeMain, NonJvmMain);
  }

  /** The apple leaf Mains: under appleMain and one pointer-size set `z`. */
  lemma AppleLeafMainAncestors(g: seq<Edge>, f: Flags, s: SourceSet, z: SourceSet)
    requires TableGraph(g, f) && f.nativeEnabled
    requires ParentTable(s, f) == {z, AppleMain} && ParentTable(z, f) == {NativeMain}
    ensures Ancestors(g, s) == {s, z, AppleMain, UnixMain, NativeMain, NonJsMain, NonJvmMain}
  {
    AncestorsWithin(g, f, s, {s, z, AppleMain, UnixMain, NativeMain, NonJsMain, NonJvmMain});
    Reach3(g, f, s, z, NativeMain, NonJsMain);
    Reach3(g, f, s, z, NativeMain, NonJvmMain);
    Reach2(g, f, s, AppleMain, UnixMain);
  }

  lemma LinuxX64MainAncestors(g: seq<Edge>, f: Flags)
    requires TableGraph(g, f) && f.nativeEnabled
    ensures Ancestors(g, LinuxX64Main) == {LinuxX64Main, Sizet64Main, LinuxMain, UnixMain, NativeMain, NonJsMain, NonJvmMain}
  {
    AncestorsWithin(g, f, LinuxX64Main, {LinuxX64Main, Sizet64Main, LinuxMain, UnixMain, NativeMain, NonJsMain, NonJvmMain});
    Reach3(g, f, LinuxX64Main, Sizet64Main, NativeMain, NonJsMain);
    Reach3(g, f, LinuxX64Main, Sizet64Main, NativeMain, NonJvmMain);
    Reach3(g, f, LinuxX64Main, LinuxMain, UnixMain, NativeMain);
  }

  /** The apple leaf Tests that the loops wire: under appleTest. */
  lemma AppleLeafTestAncestors(g: seq<Edge>, f: Flags, s: SourceSet)
    requires TableGraph(g, f) && f.nativeEnabled && ParentTable(s, f) == {AppleTest}
    ensures Ancestors(g, s) == {s, AppleTest, NativeTest, CommonTest}
  {
    AncestorsWithin(g, f, s, {s, AppleTest, NativeTest, CommonTest});
    Reach3(g, f, s, AppleTest, NativeTest, CommonTest);
  }

  /** Every source set's ancestors are exactly those of the table, for any flags. */
  lemma AncestorsAreTable(g: seq<Edge>, f: Flags, s: SourceSet)
    requires TableGraph(g, f)
    ensures Ancestors(g, s) == AncestorTable(s, f)
  {
    if !f.nativeEnabled && GateOf(s.platform) == NativeGate {
      assert s == SourceSet(s.platform, s.role);
      RootAncestors(g, f, s);
    } else {
      match s
      case SourceSet(Jvm, Main) => RootChildAncestors(g, f, s, NonJsMain);
      case SourceSet(Js, Main) =>
        if f.jsEnabled {
          RootChildAncestors(g, f, s, NonJvmMain);
        } else {
          RootAncestors(g, f, s);
        }
      case SourceSet(Native, Main) => NativeMainAncestors(g, f);
      case SourceSet(Native, Test) => RootChildAncestors(g, f, s, CommonTest);
      case SourceSet(Sizet32, Main) => NativeChildAncestors(g, f, s);
      case SourceSet(Sizet64, Main) => NativeChildAncestors(g, f, s);
      case SourceSet(Mingw, Main) => NativeChildAncestors(g, f, s);
      case SourceSet(Unix, Main) => NativeChildAncestors(g, f, s);
      case SourceSet(MingwX64, Main) => MingwX64MainAncestors(g, f);
      case SourceSet(MingwX64, Test) => NativeTestChildAncestors(g, f, s);
      case SourceSet(Apple, Main) => UnixChildAncestors(g, f, s);
      case SourceSet(Apple, Test) => NativeTestChildAncestors(g, f, s);
      case SourceSet(IosX64, Main) => AppleLeafMainAncestors(g, f, s, Sizet64Main);
      case SourceSet(IosArm64, Main) => AppleLeafMainAncestors(g, f, s, Sizet64Main);
      case SourceSet(MacosX64, Main) => AppleLeafMainAncestors(g, f, s, Sizet64Main);
      case SourceSet(IosX64, Test) => AppleLeafTestAncestors(g, f, s);
      case SourceSet(IosArm64, Test) => AppleLeafTestAncestors(g, f, s);
      case SourceSet(MacosX64, Test) => AppleLeafTestAncestors(g, f, s);
      case SourceSet(WatchosArm32, Main) => AppleLeafMainAncestors(g, f, s, Sizet32Main);
      case SourceSet(WatchosArm64, Main) => AppleLeafMainAncestors(g, f, s, Sizet32Main);
      case SourceSet(WatchosX86, Main) => AppleLeafMainAncestors(g, f, s, Sizet32Main);
      case SourceSet(WatchosArm32, Test) => AppleLeafTestAncestors(g, f, s);
      case SourceSet(WatchosArm64, Test) => AppleLeafTestAncestors(g, f, s);
      case SourceSet(WatchosX86, Test) => AppleLeafTestAncestors(g, f, s);
      case SourceSet(TvosArm64, Main) => AppleLeafMainAncestors(g, f, s, Sizet64Main);
      case SourceSet(TvosX64, Main) => AppleLeafMainAncestors(g, f, s, Sizet64Main);
      case SourceSet(Linux, Main) => UnixChildAncestors(g, f, s);
      case SourceSet(LinuxX64, Main) => LinuxX64MainAncestors(g, f);
      case SourceSet(LinuxX64, Test) => NativeTestChildAncestors(g, f, s);
      case _ => RootAncestors(g, f, s);
    }
  }
}
