/**
 * The script never calls `dependsOn` twice with the same pair, so the edge
 * list in call order holds each edge once and stands for the plugin's
 * per-set collection of `dependsOn` targets without loss.
 */
module DistinctEdges {
  import opened SourceSetNames
  import opened DependsOnGraph
  import opened OkioBuildScript

  /** No element occurs twice. */
  predicate Distinct<T(==)>(s: seq<T>) {
    forall i, j :: 0 <= i < j < |s| ==> s[i] != s[j]
  }

  /** Every edge of `s` starts at a member of `c`. */
  predicate ChildrenIn(s: seq<Edge>, c: set<SourceSet>) {
    forall e :: e in s ==> e.child in c
  }

  /** No member of `c` is in `k`. */
  predicate Disjoint(c: set<SourceSet>, k: set<SourceSet>) {
    forall x :: x in c ==> x !in k
  }

  lemma DistinctAppend<T>(a: seq<T>, b: seq<T>)
    requires Distinct(a) && Distinct(b)
    requires forall x :: x in a ==> x !in b
    ensures Distinct(a + b)
  {
    forall i, j | 0 <= i < j < |a + b| ensures (a + b)[i] != (a + b)[j] {
      if j < |a| {
        assert (a + b)[i] == a[i] && (a + b)[j] == a[j];
      } else if i >= |a| {
        assert (a + b)[i] == b[i - |a|] && (a + b)[j] == b[j - |a|];
      } else {
        assert (a + b)[i] == a[i] && (a + b)[j] == b[j - |a|];
        assert a[i] in a && b[j - |a|] in b;
      }
    }
  }

  /** `child.dependsOn(p)` for distinct `parents` adds no duplicate when `child` had no edge yet. */
  lemma {:induction false} DependsOnAllDistinct(before: seq<Edge>, child: SourceSet, parents: seq<SourceSet>)
    requires Distinct(before) && Distinct(parents)
    requires forall e :: e in before ==> e.child != child
    ensures Distinct(DependsOnAll(before, child, parents))
    decreases |parents|
  {
    if parents != [] {
      var init := parents[..|parents| - 1];
      var last := parents[|parents| - 1];
      assert Distinct(init) by {
        forall i, j | 0 <= i < j < |init| ensures init[i] != init[j] {
          assert init[i] == parents[i] && init[j] == parents[j];
        }
      }
      DependsOnAllDistinct(before, child, init);
      var prev := DependsOnAll(before, child, init);
      assert last !in init by {
        forall k | 0 <= k < |init| ensures init[k] != last {
          assert init[k] == parents[k];
        }
      }
      DistinctAppend(prev, [Edge(child, last)]);
    }
  }

  /**
   * A `for` loop over distinct `children`, none of which had an edge yet,
   * with distinct `parents` adds no duplicate.
   */
  lemma {:induction false} EachDependsOnDistinct(before: seq<Edge>, children: seq<SourceSet>, parents: seq<SourceSet>)
    requires Distinct(before) && Distinct(children) && Distinct(parents)
    requires forall e :: e in before ==> e.child !in children
    ensures Distinct(EachDependsOn(before, children, parents))
    decreases |children|
  {
    if children != [] {
      var init := children[..|children| - 1];
      var last := children[|children| - 1];
      assert Distinct(init) by {
        forall i, j | 0 <= i < j < |init| ensures init[i] != init[j] {
          assert init[i] == children[i] && init[j] == children[j];
        }
      }
      assert last !in init by {
        forall k | 0 <= k < |init| ensures init[k] != last {
          assert init[k] == children[k];
        }
      }
      forall e | e in before ensures e.child !in init {
        assert forall x :: x in init ==> x in children;
      }
      EachDependsOnDistinct(before, init, parents);
      DependsOnAllDistinct(EachDependsOn(before, init, parents), last, parents);
    }
  }

  /**
   * A loop whose children all lie in `k` adds no duplicate to edges starting
   * in `c`, when `c` and `k` are disjoint; afterwards every edge starts in `c + k`.
   */
  lemma LoopDistinct(before: seq<Edge>, c: set<SourceSet>, k: set<SourceSet>, children: seq<SourceSet>, parents: seq<SourceSet>)
    requires Distinct(before) && ChildrenIn(before, c) && Disjoint(c, k)
    requires Distinct(children) && Distinct(parents) && (forall x :: x in children ==> x in k)
    ensures Distinct(EachDependsOn(before, children, parents))
    ensures ChildrenIn(EachDependsOn(before, children, parents), c + k)
  {
    forall e | e in before ensures e.child !in children {
      assert e.child in c;
    }
    EachDependsOnDistinct(before, children, parents);
  }

  /** A block given as a list of fresh edges starting in `k` adds no duplicate. */
  lemma BlockDistinct(before: seq<Edge>, c: set<SourceSet>, k: set<SourceSet>, block: seq<Edge>)
    requires Distinct(before) && ChildrenIn(before, c) && Disjoint(c, k)
    requires Distinct(block) && ChildrenIn(block, k)
    ensures Distinct(before + block) && ChildrenIn(before + block, c + k)
  {
    forall e | e in before ensures e !in block {
      assert e.child in c;
    }
    DistinctAppend(before, block);
  }

  /*
   * The children each block starts its edges at, as sets. Each set restates
   * the children of the block's edges or loop lists in script.dfy. The
   * requirements `ChildrenIn(block, k)` of `BlockDistinct` and
   * `forall x :: x in children ==> x in k` of `LoopDistinct` check every set
   * against the list it restates.
   */

  const NativeFamilyChildren := {NativeMain, NativeTest, Sizet32Main, Sizet64Main, MingwMain, MingwX64Main, MingwX64Test, UnixMain, AppleMain, AppleTest}
  const AppleLeafChildren := {IosX64Main, IosArm64Main, MacosX64Main, IosX64Test, IosArm64Test, MacosX64Test,
                              WatchosArm32Main, WatchosArm64Main, WatchosX86Main, TvosArm64Main, TvosX64Main,
                              WatchosArm32Test, WatchosArm64Test, WatchosX86Test}
  const LinuxChildren := {LinuxMain, LinuxX64Main, LinuxX64Test}

  /** Lines 136-170 add no duplicate on top of edges that start elsewhere. */
  lemma NativeFamilyDistinct(before: seq<Edge>, c: set<SourceSet>)
    requires Distinct(before) && ChildrenIn(before, c) && Disjoint(c, NativeFamilyChildren)
    ensures Distinct(NativeFamilyEdges(before)) && ChildrenIn(NativeFamilyEdges(before), c + NativeFamilyChildren)
  {
    var block := [Edge(NativeMain, NonJsMain), Edge(NativeMain, NonJvmMain), Edge(NativeTest, CommonTest),
                  Edge(Sizet32Main, NativeMain), Edge(Sizet64Main, NativeMain), Edge(MingwMain, NativeMain),
                  Edge(MingwX64Main, MingwMain), Edge(MingwX64Test, NativeTest), Edge(UnixMain, NativeMain),
                  Edge(AppleMain, UnixMain), Edge(AppleTest, NativeTest)];
    // `block` restates the edges of `NativeFamilyEdges`; this equality ties the two.
    assert NativeFamilyEdges(before) == before + block;
    BlockDistinct(before, c, NativeFamilyChildren, block);
  }

  const Wide64MainSet := {IosX64Main, IosArm64Main, MacosX64Main}
  const Wide64TestSet := {IosX64Test, IosArm64Test, MacosX64Test}
  const WatchosMainSet := {WatchosArm32Main, WatchosArm64Main, WatchosX86Main}
  const TvosMainSet := {TvosArm64Main, TvosX64Main}

  /*
   * The five loops of lines 171-207, one lemma each: every loop runs over
   * children that no earlier edge starts from.
   */

  lemma Wide64MainsDistinct(e: seq<Edge>, c: set<SourceSet>)
    requires Distinct(e) && ChildrenIn(e, c) && Disjoint(c, AppleLeafChildren)
    ensures var r := EachDependsOn(e, AppleWide64Mains, [Sizet64Main, AppleMain]);
      Distinct(r) && ChildrenIn(r, c + Wide64MainSet)
  {
    LoopDistinct(e, c, Wide64MainSet, AppleWide64Mains, [Sizet64Main, AppleMain]);
  }

  lemma Wide64TestsDistinct(e: seq<Edge>, c: set<SourceSet>)
    requires Distinct(e) && ChildrenIn(e, c + Wide64MainSet) && Disjoint(c, AppleLeafChildren)
    ensures var r := EachDependsOn(e, AppleWide64Tests, [AppleTest]);
      Distinct(r) && ChildrenIn(r, c + Wide64MainSet + Wide64TestSet)
  {
    LoopDistinct(e, c + Wide64MainSet, Wide64TestSet, AppleWide64Tests, [AppleTest]);
  }

  lemma WatchosMainsDistinct(e: seq<Edge>, c: set<SourceSet>)
    requires Distinct(e) && ChildrenIn(e, c + Wide64MainSet + Wide64TestSet) && Disjoint(c, AppleLeafChildren)
    ensures var r := EachDependsOn(e, WatchosMains, [Sizet32Main, AppleMain]);
      Distinct(r) && ChildrenIn(r, c + Wide64MainSet + Wide64TestSet + WatchosMainSet)
  {
    LoopDistinct(e, c + Wide64MainSet + Wide64TestSet, WatchosMainSet, WatchosMains, [Sizet32Main, AppleMain]);
  }

  lemma TvosMainsDistinct(e: seq<Edge>, c: set<SourceSet>)
    requires Distinct(e) && ChildrenIn(e, c + Wide64MainSet + Wide64TestSet + WatchosMainSet)
    requires Disjoint(c, AppleLeafChildren)
    ensures var r := EachDependsOn(e, TvosMains, [Sizet64Main, AppleMain]);
      Distinct(r) && ChildrenIn(r, c + Wide64MainSet + Wide64TestSet + WatchosMainSet + TvosMainSet)
  {
    LoopDistinct(e, c + Wide64MainSet + Wide64TestSet + WatchosMainSet, TvosMainSet, TvosMains, [Sizet64Main, AppleMain]);
  }

  lemma WatchosTestsDistinct(e: seq<Edge>, c: set<SourceSet>)
    requires Distinct(e) && ChildrenIn(e, c + Wide64MainSet + Wide64TestSet + WatchosMainSet + TvosMainSet)
    requires Disjoint(c, AppleLeafChildren)
    ensures var r := EachDependsOn(e, WatchosTests, [AppleTest]);
      Distinct(r) && ChildrenIn(r, c + AppleLeafChildren)
  {
    var d := c + Wide64MainSet + Wide64TestSet + WatchosMainSet + TvosMainSet;
    var k := {WatchosArm32Test, WatchosArm64Test, WatchosX86Test};
    LoopDistinct(e, d, k, WatchosTests, [AppleTest]);
  }

  /** Lines 171-207: the five loops add no duplicate. */
  lemma AppleLeafDistinct(before: seq<Edge>, c: set<SourceSet>)
    requires Distinct(before) && ChildrenIn(before, c) && Disjoint(c, AppleLeafChildren)
    ensures Distinct(AppleLeafEdges(before)) && ChildrenIn(AppleLeafEdges(before), c + AppleLeafChildren)
  {
    Wide64MainsDistinct(before, c);
    var e1 := EachDependsOn(before, AppleWide64Mains, [Sizet64Main, AppleMain]);
    Wide64TestsDistinct(e1, c);
    var e2 := EachDependsOn(e1, AppleWide64Tests, [AppleTest]);
    WatchosMainsDistinct(e2, c);
    var e3 := EachDependsOn(e2, WatchosMains, [Sizet32Main, AppleMain]);
    TvosMainsDistinct(e3, c);
    var e4 := EachDependsOn(e3, TvosMains, [Sizet64Main, AppleMain]);
    WatchosTestsDistinct(e4, c);
  }

  /** Lines 209-219 add no duplicate on top of edges that start elsewhere. */
  lemma LinuxDistinct(before: seq<Edge>, c: set<SourceSet>)
    requires Distinct(before) && ChildrenIn(before, c) && Disjoint(c, LinuxChildren)
    ensures Distinct(LinuxEdges(before))
  {
    var block := [Edge(LinuxMain, UnixMain), Edge(LinuxMain, NativeMain), Edge(LinuxX64Main, Sizet64Main),
                  Edge(LinuxX64Main, LinuxMain), Edge(LinuxX64Test, NativeTest)];
    // `block` restates the edges of `LinuxEdges`; this equality ties the two.
    assert LinuxEdges(before) == before + block;
    BlockDistinct(before, c, LinuxChildren, block);
  }

  /** Lines 104-133: at most the jvm and the js edge. */
  lemma SharedJsDistinct(f: Flags)
    ensures var js := if f.jsEnabled then JsEdges(SharedEdges([])) else SharedEdges([]);
      Distinct(js) && ChildrenIn(js, {JvmMain, JsMain})
  {
    if f.jsEnabled {
      assert JsEdges(SharedEdges([])) == [Edge(JvmMain, NonJsMain), Edge(JsMain, NonJvmMain)];
    } else {
      assert SharedEdges([]) == [Edge(JvmMain, NonJsMain)];
    }
  }

  /*
   * The blocks start their edges at disjoint sets of children: each child's
   * platform belongs to one block only.
   */

  lemma FamilyChildrenFresh()
    ensures Disjoint({JvmMain, JsMain}, NativeFamilyChildren)
  {
  }

  lemma AppleLeafChildrenFresh()
    ensures Disjoint({JvmMain, JsMain} + NativeFamilyChildren, AppleLeafChildren)
  {
  }

  lemma LinuxChildrenFresh()
    ensures Disjoint({JvmMain, JsMain} + NativeFamilyChildren + AppleLeafChildren, LinuxChildren)
  {
  }

  /** Lines 135-219 add no duplicate on top of the jvm and js edges. */
  lemma NativeBlocksDistinct(js: seq<Edge>)
    requires Distinct(js) && ChildrenIn(js, {JvmMain, JsMain})
    ensures Distinct(LinuxEdges(AppleLeafEdges(NativeFamilyEdges(js))))
  {
    var c := {JvmMain, JsMain};
    FamilyChildrenFresh();
    AppleLeafChildrenFresh();
    LinuxChildrenFresh();
    NativeFamilyDistinct(js, c);
    var n := NativeFamilyEdges(js);
    AppleLeafDistinct(n, c + NativeFamilyChildren);
    LinuxDistinct(AppleLeafEdges(n), c + NativeFamilyChildren + AppleLeafChildren);
  }

  /** Under every flag setting, the script adds each `dependsOn` edge once. */
  lemma ScriptEdgesDistinct(f: Flags)
    ensures Distinct(ScriptEdges(f))
  {
    SharedJsDistinct(f);
    if f.nativeEnabled {
      NativeBlocksDistinct(if f.jsEnabled then JsEdges(SharedEdges([])) else SharedEdges([]));
    }
  }
}
