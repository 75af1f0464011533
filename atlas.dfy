/**
 * The ATLAS build steps: configure-option assembly, classification of a failed
 * configure run, the parallelism override, the shared-library make, the fixed
 * test targets and the default sanity-check paths.
 *
 * The shell, the filesystem and the environment are inputs: the environment is
 * a map, each directory creation or change comes with its result, and the
 * configure run with its captured output and exit code. Steps of the generic
 * application base class and the shell commands issued are recorded, in order,
 * in a trace. An error logged with `log.error` aborts the step; it is the
 * `Fail` outcome.
 */
module Atlas {
  import Throttling
  import Manifest

  /** The fatal errors a step can end with. */
  datatype StepError =
    | MissingDependency(msg: string)
    | EnvironmentSetupError(msg: string)
    | ThrottlingDetected(msg: string)
    | ConfigureFailed(msg: string)

  datatype Outcome = Ok | Fail(error: StepError)

  datatype Option = None | Some(value: string)

  /** The result of os.makedirs or os.chdir; the reason is the OSError's text. */
  datatype FsResult = FsOk | FsError(reason: string)

  /** What a step hands to the outside world, in order. */
  datatype Event =
    | RunCmd(cmd: string)
    | DefaultMake(verbose: bool)
    | DefaultTest(target: string)
    | DefaultSanityCheck(paths: map<string, seq<string>>)

  /** Non-fatal log messages. */
  datatype LogEntry = Info(text: string) | Warning(text: string)

  const BitsFragment: string := "-b 64"
  const NoThrottleCheckFragment: string := "-Si cputhrchk 0"
  const PicFragment: string := "-Fa alg -fPIC"
  const LapackFragmentLead: string := " --with-netlib-lapack="

  const MissingLapackMsg: string :=
    "netlib's LAPACK library not available, required to build ATLAS with a full LAPACK library."
  const ObjDirMsgLead: string := "Failed to create obj directory to build in: "
  const ThrottlingMsg: string :=
    "Configure failed, because CPU throttling is enabled; ATLAS doesn't like that. "
    + "You can either disable CPU throttling, or set 'ignorethrottling' to True in the ATLAS .eb spec file. "
    + "Also see http://math-atlas.sourceforge.net/errata.html#cputhrottle ."
  const GenericMsgLead: string := "configure output: "
  const GenericMsgTail: string := "\nConfigure failed, not sure why (see output above)."
  const LibDirMsg: string := "Failed to change to 'lib' directory for building the shared libs."
  const BackDirMsgLead: string := "Failed to get back to previous dir after building shared libs: "
  const SharedLibsCmd: string := "make shared cshared ptshared cptshared"
  const ParallelInfo: string := "Disabling parallel build, makes no sense for ATLAS."
  const RunTestWarning: string :=
    "ATLAS testing is done using 'make check' and 'make ptcheck', so no need to set 'runtest' in the .eb spec file."

  /** The LAPACK root, when SOFTROOTLAPACK is set to a non-empty (truthy) value. */
  function LapackRoot(env: map<string, string>): Option {
    if "SOFTROOTLAPACK" in env && env["SOFTROOTLAPACK"] != "" then Some(env["SOFTROOTLAPACK"]) else None
  }

  /** `"%s" % os.getenv(name)`: an unset variable renders as "None". */
  function EnvText(env: map<string, string>, name: string): string {
    if name in env then env[name] else "None"
  }

  function LapackFragment(root: string): string {
    LapackFragmentLead + root + "/lib/liblapack.a"
  }

  predicate IsLapackFragment(f: string) {
    |LapackFragmentLead| <= |f| && f[..|LapackFragmentLead|] == LapackFragmentLead
  }

  function CompilerFragment(env: map<string, string>): string {
    "-C ic " + EnvText(env, "CC") + " -C if " + EnvText(env, "F77")
  }

  /** The fragments appended before the LAPACK check. */
  function LeadingFragments(ignoreThrottling: bool): seq<string> {
    [BitsFragment] + (if ignoreThrottling then [NoThrottleCheckFragment] else [])
  }

  /** The fragments appended before the obj directory is entered. */
  function OptionFragments(ignoreThrottling: bool, fullLapack: bool, sharedLibs: bool, pic: bool,
                           env: map<string, string>): seq<string>
  {
    LeadingFragments(ignoreThrottling)
    + (if fullLapack && LapackRoot(env).Some? then [LapackFragment(LapackRoot(env).value)] else [])
    + (if sharedLibs || pic then [PicFragment] else [])
  }

  /** Every fragment a successful configure appends, in order. */
  function ConfigureFragments(ignoreThrottling: bool, fullLapack: bool, sharedLibs: bool, pic: bool,
                              env: map<string, string>): seq<string>
  {
    OptionFragments(ignoreThrottling, fullLapack, sharedLibs, pic, env) + [CompilerFragment(env)]
  }

  function B2I(b: bool): nat {
    if b then 1 else 0
  }

  /**
   * A configure run appends "-b 64" first and the compiler fragment last; in
   * between come "-Si cputhrchk 0" when ignoreThrottling, then the netlib
   * LAPACK fragment when fullLapack finds SOFTROOTLAPACK, then "-Fa alg -fPIC"
   * when sharedLibs or pic, and nothing else.
   */
  lemma ConfigureFragmentsOrder(ignoreThrottling: bool, fullLapack: bool, sharedLibs: bool, pic: bool,
                                env: map<string, string>)
    ensures var p := ConfigureFragments(ignoreThrottling, fullLapack, sharedLibs, pic, env);
      var lapack := fullLapack && LapackRoot(env).Some?;
      && |p| == 2 + B2I(ignoreThrottling) + B2I(lapack) + B2I(sharedLibs || pic)
      && p[0] == BitsFragment
      && p[|p| - 1] == CompilerFragment(env)
      && (ignoreThrottling ==> p[1] == NoThrottleCheckFragment)
      && (lapack ==> p[1 + B2I(ignoreThrottling)] == LapackFragment(LapackRoot(env).value))
      && ((sharedLibs || pic) ==> p[|p| - 2] == PicFragment)
  {
  }

  /**
   * Each optional fragment is present exactly when its condition holds:
   * "-Si cputhrchk 0" iff ignoreThrottling, "-Fa alg -fPIC" iff sharedLibs or
   * pic, and a netlib LAPACK fragment only when fullLapack finds SOFTROOTLAPACK,
   * pointing at its lib/liblapack.a.
   */
  lemma ConfigureFragmentsMembership(ignoreThrottling: bool, fullLapack: bool, sharedLibs: bool, pic: bool,
                                     env: map<string, string>)
    ensures var p := ConfigureFragments(ignoreThrottling, fullLapack, sharedLibs, pic, env);
      var lapack := fullLapack && LapackRoot(env).Some?;
      && (NoThrottleCheckFragment in p <==> ignoreThrottling)
      && (PicFragment in p <==> sharedLibs || pic)
      && (lapack ==> LapackFragment(LapackRoot(env).value) in p)
      && (forall f :: f in p && IsLapackFragment(f) ==> lapack && f == LapackFragment(LapackRoot(env).value))
  {
    var p := ConfigureFragments(ignoreThrottling, fullLapack, sharedLibs, pic, env);
    var lapack := fullLapack && LapackRoot(env).Some?;
    var c := CompilerFragment(env);
    assert c[1] == 'C' && c[0] == '-';
    assert NoThrottleCheckFragment[1] == 'S' && PicFragment[1] == 'F';
    if lapack {
      var lf := LapackFragment(LapackRoot(env).value);
      assert lf[0] == ' ';
      assert lf[..|LapackFragmentLead|] == LapackFragmentLead;
    }
    forall f | f in p && IsLapackFragment(f)
      ensures lapack && f == LapackFragment(LapackRoot(env).value)
    {
      assert f[0] == ' ';
    }
  }

  /** The configuration string the fragments make, one space between fragments. */
  function Join(frags: seq<string>): string {
    if frags == [] then ""
    else if |frags| == 1 then frags[0]
    else frags[0] + " " + Join(frags[1..])
  }

  /** Appending a fragment to the list extends the rendered string by one space and the fragment. */
  lemma {:induction false} JoinAppend(frags: seq<string>, f: string)
    ensures Join(frags + [f]) == if frags == [] then f else Join(frags) + " " + f
    decreases |frags|
  {
    if |frags| >= 2 {
      assert (frags + [f])[1..] == frags[1..] + [f];
      JoinAppend(frags[1..], f);
    } else if |frags| == 1 {
      assert (frags + [f])[1..] == [f];
    }
  }

  /** "<preconfigopts> <startfrom>/configure --prefix=<installdir> <configopts>" */
  function ConfigureCommand(preConfigOpts: string, startFrom: string, installDir: string,
                            configOpts: seq<string>): string
  {
    preConfigOpts + " " + startFrom + "/configure --prefix=" + installDir + " " + Join(configOpts)
  }

  /**
   * The configure command ends with the compiler fragment, so it is issued
   * with the fully accumulated options, preceded by a space.
   */
  lemma CommandEndsWithCompilers(preConfigOpts: string, startFrom: string, installDir: string,
                                 prior: seq<string>, ignoreThrottling: bool, fullLapack: bool,
                                 sharedLibs: bool, pic: bool, env: map<string, string>)
    ensures var opts := prior + ConfigureFragments(ignoreThrottling, fullLapack, sharedLibs, pic, env);
      Manifest.EndsWith(ConfigureCommand(preConfigOpts, startFrom, installDir, opts), " " + CompilerFragment(env))
  {
    var front := prior + OptionFragments(ignoreThrottling, fullLapack, sharedLibs, pic, env);
    var c := CompilerFragment(env);
    assert front != [] by {
      assert OptionFragments(ignoreThrottling, fullLapack, sharedLibs, pic, env)[0] == BitsFragment;
    }
    assert prior + ConfigureFragments(ignoreThrottling, fullLapack, sharedLibs, pic, env) == front + [c];
    JoinAppend(front, c);
    var head := preConfigOpts + " " + startFrom + "/configure --prefix=" + installDir + " " + Join(front);
    assert ConfigureCommand(preConfigOpts, startFrom, installDir, front + [c]) == head + (" " + c);
  }

  /** The generic failure message, which carries the raw output. */
  function GenericMsg(out: string): string {
    GenericMsgLead + out + GenericMsgTail
  }

  predicate InfixAt(s: string, t: string, i: nat) {
    i + |t| <= |s| && s[i..i + |t|] == t
  }

  ghost predicate Contains(s: string, t: string) {
    exists i: nat :: InfixAt(s, t, i)
  }

  /**
   * The verdict on a configure run: exit code 0 is success; otherwise the
   * throttling message when the output shows the throttling pattern, and the
   * generic message carrying the raw output when it does not.
   */
  function ConfigureVerdict(out: string, ec: int): (r: Outcome)
    ensures r == Ok <==> ec == 0
    ensures ec != 0 && Throttling.Occurs(out) ==> r == Fail(ThrottlingDetected(ThrottlingMsg))
    ensures ec != 0 && !Throttling.Occurs(out) ==>
      r.Fail? && r.error.ConfigureFailed? && Contains(r.error.msg, out)
  {
    if ec == 0 then Ok
    else if Throttling.Reported(out) then Fail(ThrottlingDetected(ThrottlingMsg))
    else
      var msg := GenericMsg(out);
      assert InfixAt(msg, out, |GenericMsgLead|);
      Fail(ConfigureFailed(msg))
  }

  /** The reason reported when creating or entering obj fails. */
  function ObjDirReason(mkdir: FsResult, chdir: FsResult): string {
    if mkdir.FsError? then mkdir.reason else if chdir.FsError? then chdir.reason else ""
  }

  /** The build of one ATLAS installation, with the configuration record it carries. */
  class AtlasBuild {
    // Options specific to ATLAS.
    var ignoreThrottling: bool
    var fullLapack: bool
    var sharedLibs: bool
    // Generic configuration and the toolkit's pic option.
    var pic: bool
    var preConfigOpts: string
    var startFrom: string
    var installDir: string
    var configOpts: seq<string>
    var runTest: string
    var sanityCheckPaths: map<string, seq<string>>
    var parallel: int
    // The working directory, relative to where the build started, and what was done.
    var cwd: seq<string>
    var trace: seq<Event>
    var log: seq<LogEntry>

    /** The three ATLAS options start at their defaults; the rest is the generic configuration. */
    constructor (pic: bool, preConfigOpts: string, startFrom: string, installDir: string,
                 configOpts: seq<string>, runTest: string, sanityCheckPaths: map<string, seq<string>>,
                 parallel: int)
      ensures !ignoreThrottling && !fullLapack && sharedLibs
      ensures this.pic == pic && this.preConfigOpts == preConfigOpts && this.startFrom == startFrom
      ensures this.installDir == installDir && this.configOpts == configOpts && this.runTest == runTest
      ensures this.sanityCheckPaths == sanityCheckPaths && this.parallel == parallel
      ensures cwd == [] && trace == [] && log == []
    {
      ignoreThrottling, fullLapack, sharedLibs := false, false, true;
      this.pic, this.preConfigOpts, this.startFrom := pic, preConfigOpts, startFrom;
      this.installDir, this.configOpts, this.runTest := installDir, configOpts, runTest;
      this.sanityCheckPaths, this.parallel := sanityCheckPaths, parallel;
      cwd, trace, log := [], [], [];
    }

    /**
     * The option fragments of configure, up to the obj directory. Without a
     * LAPACK root, full LAPACK stops the appending after the leading fragments.
     */
    method AppendOptions(env: map<string, string>) returns (lapackFound: bool)
      modifies this`configOpts
      ensures lapackFound <==> !(fullLapack && LapackRoot(env).None?)
      ensures configOpts == old(configOpts) +
        if lapackFound then OptionFragments(ignoreThrottling, fullLapack, sharedLibs, pic, env)
        else LeadingFragments(ignoreThrottling)
    {
      configOpts := configOpts + [BitsFragment];
      if ignoreThrottling {
        configOpts := configOpts + [NoThrottleCheckFragment];
      }
      if fullLapack {
        var root := LapackRoot(env);
        if root.Some? {
          configOpts := configOpts + [LapackFragment(root.value)];
        } else {
          return false;
        }
      }
      if sharedLibs || pic {
        configOpts := configOpts + [PicFragment];
      }
      lapackFound := true;
    }

    /**
     * Configure: append the options, enter obj, append the compilers, run
     * configure one level up and classify its result. A missing LAPACK stops
     * before obj is created, a directory failure before any command is run;
     * the fragments appended up to that point stay appended.
     */
    method Configure(env: map<string, string>, mkdir: FsResult, chdir: FsResult, out: string, ec: int)
      returns (r: Outcome)
      modifies this`configOpts, this`cwd, this`trace
      ensures fullLapack && LapackRoot(env).None? ==>
        && r == Fail(MissingDependency(MissingLapackMsg))
        && configOpts == old(configOpts) + LeadingFragments(ignoreThrottling)
        && cwd == old(cwd) && trace == old(trace)
      ensures !(fullLapack && LapackRoot(env).None?) && (mkdir.FsError? || chdir.FsError?) ==>
        && r == Fail(EnvironmentSetupError(ObjDirMsgLead + ObjDirReason(mkdir, chdir)))
        && configOpts == old(configOpts) + OptionFragments(ignoreThrottling, fullLapack, sharedLibs, pic, env)
        && cwd == old(cwd) && trace == old(trace)
      ensures !(fullLapack && LapackRoot(env).None?) && mkdir.FsOk? && chdir.FsOk? ==>
        && r == ConfigureVerdict(out, ec)
        && configOpts == old(configOpts) + ConfigureFragments(ignoreThrottling, fullLapack, sharedLibs, pic, env)
        && cwd == old(cwd) + ["obj"]
        && trace == old(trace) + [RunCmd(ConfigureCommand(preConfigOpts, startFrom, installDir, configOpts))]
    {
      var lapackFound := AppendOptions(env);
      if !lapackFound {
        return Fail(MissingDependency(MissingLapackMsg));
      }
      if mkdir.FsError? {
        return Fail(EnvironmentSetupError(ObjDirMsgLead + mkdir.reason));
      }
      if chdir.FsError? {
        return Fail(EnvironmentSetupError(ObjDirMsgLead + chdir.reason));
      }
      cwd := cwd + ["obj"];
      configOpts := configOpts + [CompilerFragment(env)];
      var cmd := ConfigureCommand(preConfigOpts, startFrom, installDir, configOpts);
      trace := trace + [RunCmd(cmd)];
      r := ConfigureVerdict(out, ec);
    }

    /** Parallel builds are switched off, whatever was requested. */
    method SetParallelism()
      modifies this`parallel, this`log
      ensures parallel == 1
      ensures log == old(log) + [Info(ParallelInfo)]
    {
      log := log + [Info(ParallelInfo)];
      parallel := 1;
    }

    /**
     * The default make, then, with shared libraries, the shared-library make
     * inside lib, returning to the directory make started in.
     */
    method Make(libDir: FsResult, backDir: FsResult) returns (r: Outcome)
      modifies this`cwd, this`trace
      ensures !sharedLibs ==> r == Ok && trace == old(trace) + [DefaultMake(true)] && cwd == old(cwd)
      ensures sharedLibs && libDir.FsError? ==>
        && r == Fail(EnvironmentSetupError(LibDirMsg))
        && trace == old(trace) + [DefaultMake(true)] && cwd == old(cwd)
      ensures sharedLibs && libDir.FsOk? && backDir.FsError? ==>
        && r == Fail(EnvironmentSetupError(BackDirMsgLead + backDir.reason + " "))
        && trace == old(trace) + [DefaultMake(true), RunCmd(SharedLibsCmd)]
        && cwd == old(cwd) + ["lib"]
      ensures sharedLibs && libDir.FsOk? && backDir.FsOk? ==>
        && r == Ok
        && trace == old(trace) + [DefaultMake(true), RunCmd(SharedLibsCmd)]
        && cwd == old(cwd)
    {
      trace := trace + [DefaultMake(true)];
      if sharedLibs {
        if libDir.FsError? {
          return Fail(EnvironmentSetupError(LibDirMsg));
        }
        cwd := cwd + ["lib"];
        trace := trace + [RunCmd(SharedLibsCmd)];
        if backDir.FsError? {
          return Fail(EnvironmentSetupError(BackDirMsgLead + backDir.reason + " "));
        }
        cwd := cwd[..|cwd| - 1];
      }
      r := Ok;
    }

    /**
     * The default test step runs three times, on the targets check, ptcheck
     * and time; a runtest value set beforehand only draws a warning.
     */
    method Test()
      modifies this`runTest, this`trace, this`log
      ensures trace == old(trace) + [DefaultTest("check"), DefaultTest("ptcheck"), DefaultTest("time")]
      ensures runTest == "time"
      ensures log == old(log) + (if old(runTest) != "" then [Warning(RunTestWarning)] else [])
    {
      if runTest != "" {
        log := log + [Warning(RunTestWarning)];
      }
      runTest := "check";
      trace := trace + [DefaultTest(runTest)];
      runTest := "ptcheck";
      trace := trace + [DefaultTest(runTest)];
      runTest := "time";
      trace := trace + [DefaultTest(runTest)];
    }

    /**
     * Unset sanity-check paths become the ATLAS default for the current
     * sharedLibs; set ones are kept. The default check then runs on them.
     */
    method SanityCheck()
      modifies this`sanityCheckPaths, this`trace
      ensures sanityCheckPaths == if old(sanityCheckPaths) == map[] then Manifest.DefaultPaths(sharedLibs)
                                  else old(sanityCheckPaths)
      ensures trace == old(trace) + [DefaultSanityCheck(sanityCheckPaths)]
    {
      if sanityCheckPaths == map[] {
        sanityCheckPaths := Manifest.DefaultPaths(sharedLibs);
      }
      trace := trace + [DefaultSanityCheck(sanityCheckPaths)];
    }
  }

  /**
   * Configure and make on the defaults, with every outside action succeeding:
   * one configure command, then the default make and the shared-library make,
   * ending in obj with parallelism 1.
   */
  method DefaultConfigureAndMake(env: map<string, string>)
  {
    var b := new AtlasBuild(false, "", "..", "/opt/atlas", [], "", map[], 4);
    var r := b.Configure(env, FsOk, FsOk, "", 0);
    assert r == Ok && b.cwd == ["obj"];
    b.SetParallelism();
    r := b.Make(FsOk, FsOk);
    assert r == Ok && b.cwd == ["obj"] && b.parallel == 1;
    assert b.trace[1..] == [DefaultMake(true), RunCmd(SharedLibsCmd)];
  }

  /**
   * Test and sanity check on the defaults: the three test targets, then 14
   * files and one directory to check.
   */
  method DefaultTestAndCheck()
  {
    var b := new AtlasBuild(false, "", "..", "/opt/atlas", [], "", map[], 1);
    b.Test();
    b.SanityCheck();
    assert b.sanityCheckPaths == Manifest.DefaultPaths(true);
    assert b.trace[..3] == [DefaultTest("check"), DefaultTest("ptcheck"), DefaultTest("time")];
    assert |b.sanityCheckPaths["files"]| == 14 && b.sanityCheckPaths["dirs"] == ["include/atlas"];
  }
}
