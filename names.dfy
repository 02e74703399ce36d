/**
 * Names of the Kotlin source sets that okio/build.gradle.kts declares or looks up.
 * A Kotlin source set is named `<platform><Role>`, for instance `iosX64Main` or `nativeTest`.
 */
module SourceSetNames {

  /** The platform half of a source-set name. */
  datatype Platform =
    | Common | Jvm | Js
    | NonJs | NonJvm
    | Native | Sizet32 | Sizet64
    | Mingw | MingwX64
    | Unix | Apple | Linux
    | IosX64 | IosArm64 | MacosX64
    | WatchosArm32 | WatchosArm64 | WatchosX86
    | TvosArm64 | TvosX64
    | LinuxX64

  /** The role half of a source-set name: production code or test code. */
  datatype Role = Main | Test

  datatype SourceSet = SourceSet(platform: Platform, role: Role)

  /** The two Gradle properties `kmpJsEnabled` and `kmpNativeEnabled`. */
  datatype Flags = Flags(jsEnabled: bool, nativeEnabled: bool)

  /** Which `if` of the script a platform's source sets live under. */
  datatype Gate = Always | JsGate | NativeGate

  function GateOf(p: Platform): Gate {
    match p
    case Common | Jvm | NonJs | NonJvm => Always
    case Js => JsGate
    case _ => NativeGate
  }

  predicate Open(g: Gate, f: Flags) {
    match g
    case Always => true
    case JsGate => f.jsEnabled
    case NativeGate => f.nativeEnabled
  }

  /** The ten native targets declared under `kmpNativeEnabled`. */
  predicate IsNativeLeaf(p: Platform) {
    p in {IosX64, IosArm64, MacosX64, WatchosArm32, WatchosArm64, WatchosX86, TvosArm64, TvosX64, LinuxX64, MingwX64}
  }

  /** A declared Kotlin target; each one brings a default Main and Test source set. */
  predicate IsTarget(p: Platform) {
    p == Jvm || p == Js || IsNativeLeaf(p)
  }

  /**
   * Platforms that have a Test source set: common, every target, and the two
   * intermediate test sets the script creates (`nativeTest`, `appleTest`).
   */
  predicate HasTestSet(p: Platform) {
    p == Common || IsTarget(p) || p == Native || p == Apple
  }

  /**
   * The source sets that exist once the script has run with flags `f`:
   * those under an open gate, with a Test set only where one is declared.
   */
  predicate Declared(s: SourceSet, f: Flags) {
    Open(GateOf(s.platform), f) && (s.role == Main || HasTestSet(s.platform))
  }

  const CommonMain := SourceSet(Common, Main)
  const CommonTest := SourceSet(Common, Test)
  const JvmMain := SourceSet(Jvm, Main)
  const JvmTest := SourceSet(Jvm, Test)
  const JsMain := SourceSet(Js, Main)
  const JsTest := SourceSet(Js, Test)
  const NonJsMain := SourceSet(NonJs, Main)
  const NonJvmMain := SourceSet(NonJvm, Main)
  const NativeMain := SourceSet(Native, Main)
  const NativeTest := SourceSet(Native, Test)
  const Sizet32Main := SourceSet(Sizet32, Main)
  const Sizet64Main := SourceSet(Sizet64, Main)
  const MingwMain := SourceSet(Mingw, Main)
  const MingwX64Main := SourceSet(MingwX64, Main)
  const MingwX64Test := SourceSet(MingwX64, Test)
  const UnixMain := SourceSet(Unix, Main)
  const AppleMain := SourceSet(Apple, Main)
  const AppleTest := SourceSet(Apple, Test)
  const IosX64Main := SourceSet(IosX64, Main)
  const IosArm64Main := SourceSet(IosArm64, Main)
  const MacosX64Main := SourceSet(MacosX64, Main)
  const IosX64Test := SourceSet(IosX64, Test)
  const IosArm64Test := SourceSet(IosArm64, Test)
  const MacosX64Test := SourceSet(MacosX64, Test)
  const WatchosArm32Main := SourceSet(WatchosArm32, Main)
  const WatchosArm64Main := SourceSet(WatchosArm64, Main)
  const WatchosX86Main := SourceSet(WatchosX86, Main)
  const WatchosArm32Test := SourceSet(WatchosArm32, Test)
  const WatchosArm64Test := SourceSet(WatchosArm64, Test)
  const WatchosX86Test := SourceSet(WatchosX86, Test)
  const TvosArm64Main := SourceSet(TvosArm64, Main)
  const TvosX64Main := SourceSet(TvosX64, Main)
  const LinuxMain := SourceSet(Linux, Main)
  const LinuxX64Main := SourceSet(LinuxX64, Main)
  const LinuxX64Test := SourceSet(LinuxX64, Test)

  /** The `pMain` and `pTest` a target `p` registers when it is declared. */
  function DefaultSets(p: Platform): set<SourceSet> {
    {SourceSet(p, Main), SourceSet(p, Test)}
  }
}
