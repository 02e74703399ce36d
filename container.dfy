/**
 * The Kotlin Gradle plugin's `kotlin.sourceSets` container as the build script
 * uses it: targets register their default source sets, `by creating` adds a new
 * source set, `by getting` looks one up, `dependsOn` adds an edge and
 * `kotlin.srcDir` attaches a source directory.
 */
module SourceSetContainer {
  import opened SourceSetNames
  import opened DependsOnGraph

  datatype Option<T> = None | Some(value: T)

  /** The exceptions Gradle throws from the two delegates; either one aborts the script. */
  datatype Failure =
    | AlreadyExists(name: SourceSet)   // `by creating` on a name that is taken
    | UnknownSourceSet(name: SourceSet) // `by getting` on a name that does not exist

  /** An extra directory of sources attached to a source set. */
  datatype SrcDir = SrcDir(owner: SourceSet, path: string)

  class Container {
    /** Targets in declaration order. */
    var targets: seq<Platform>
    var nodes: set<SourceSet>
    /** Edges in the order `dependsOn` was called. */
    var edges: seq<Edge>
    var srcDirs: seq<SrcDir>
    /** The exception that stopped the script, if one did; no operation runs after it. */
    var failure: Option<Failure>

    /** Every edge joins two registered source sets. */
    ghost predicate Valid()
      reads this
    {
      forall e :: e in edges ==> e.child in nodes && e.parent in nodes
    }

    /** The plugin registers `commonMain` and `commonTest` before any target exists. */
    constructor ()
      ensures Valid()
      ensures targets == [] && nodes == {CommonMain, CommonTest}
      ensures edges == [] && srcDirs == [] && failure == None
    {
      targets := [];
      nodes := {CommonMain, CommonTest};
      edges := [];
      srcDirs := [];
      failure := None;
    }

    /**
     * Declaring target `p` (`jvm {}`, `iosX64()`, ...) registers its default
     * `pMain` and `pTest`, reusing them if present. Targets are declared before
     * any lookup can fail.
     */
    method DeclareTarget(p: Platform)
      requires Valid() && failure == None
      modifies this
      ensures Valid()
      ensures failure == None && edges == old(edges) && srcDirs == old(srcDirs)
      ensures targets == old(targets) + [p] && nodes == old(nodes) + DefaultSets(p)
    {
      targets := targets + [p];
      nodes := nodes + {SourceSet(p, Main), SourceSet(p, Test)};
    }

    /**
     * `val s by creating`: registers a new source set; a taken name fails.
     * A failure is an exception that ends the script, so no operation runs
     * after one.
     */
    method Creating(s: SourceSet)
      requires Valid() && failure == None
      modifies this
      ensures Valid()
      ensures targets == old(targets) && edges == old(edges) && srcDirs == old(srcDirs)
      ensures nodes == old(nodes) + {s}
      ensures s in old(nodes) ==> failure == Some(AlreadyExists(s))
      ensures s !in old(nodes) ==> failure == None
    {
      if s in nodes {
        failure := Some(AlreadyExists(s));
      } else {
        nodes := nodes + {s};
      }
    }

    /** `val s by getting`: looks a source set up; a missing name fails. */
    method Getting(s: SourceSet)
      requires Valid() && failure == None
      modifies this
      ensures Valid()
      ensures targets == old(targets) && nodes == old(nodes) && edges == old(edges) && srcDirs == old(srcDirs)
      ensures s in nodes ==> failure == None
      ensures s !in nodes ==> failure == Some(UnknownSourceSet(s))
    {
      if s !in nodes {
        failure := Some(UnknownSourceSet(s));
      }
    }

    /**
     * `child.dependsOn(parent)`. The script only holds handles it obtained from
     * the container, so both ends are registered.
     */
    method DependsOn(child: SourceSet, parent: SourceSet)
      requires Valid() && failure == None
      requires child in nodes && parent in nodes
      modifies this
      ensures Valid()
      ensures targets == old(targets) && nodes == old(nodes) && srcDirs == old(srcDirs) && failure == None
      ensures edges == old(edges) + [Edge(child, parent)]
    {
      edges := edges + [Edge(child, parent)];
    }

    /** `kotlin.srcDir(path)` inside the configuration block of `owner`. */
    method AddSrcDir(owner: SourceSet, path: string)
      requires Valid() && failure == None
      requires owner in nodes
      modifies this
      ensures Valid()
      ensures targets == old(targets) && nodes == old(nodes) && edges == old(edges) && failure == None
      ensures srcDirs == old(srcDirs) + [SrcDir(owner, path)]
    {
      srcDirs := srcDirs + [SrcDir(owner, path)];
    }
  }
}
