# ATLAS easyblock: a Dafny model

This project models the ATLAS easyblock of EasyBuild (`easybuild/easyblocks/a/ATLAS.py`). The
easyblock is the build-step controller for the ATLAS linear-algebra library. The model covers
its deterministic decisions and proves properties about them:

- how `configure` builds the `configopts` value one fragment at a time;
- which error a configure step ends with: missing netlib LAPACK, failure to create or enter
  `obj`, CPU throttling detected, or a generic configure failure;
- the pipeline policy: parallelism 1, the shared-library make inside `lib`, and the three
  fixed test targets;
- the default sanity-check paths.

Files:

- `atlas.dfy`, module `Atlas`:
  - the outcome, filesystem-result, trace and log datatypes;
  - the pure functions behind configure;
  - the class `AtlasBuild`, whose fields are the configuration record that the steps update
    in place. Its methods are `AppendOptions`, `Configure`, `SetParallelism`, `Make`, `Test`
    and `SanityCheck`;
  - two client methods that run the default pipeline on the class contracts alone.
- `throttling.dfy`, module `Throttling`: the case-insensitive search for
  `cpu throttling [a-zA-Z]* enabled`. It is an executable scan, proved equal to a
  declarative definition of a match.
- `manifest.dfy`, module `Manifest`: the default sanity-check files and directories.

Outside effects are inputs or recorded events. The environment is a `map<string, string>`.
Each `os.makedirs`/`os.chdir` comes with its result (`FsOk` or `FsError(reason)`). The
configure run comes with its captured output and exit code. The shell commands issued and
the default make, test and sanity-check steps are appended, in order, to the `trace` field.
`log.error` raises in EasyBuild, so it stops the step. The model shows it as a `Fail`
outcome, and the step does nothing after it. Fragments appended before the error stay
appended, as they do in the source.

Points where the source's behaviour is easy to misread:

- An unset `CC` or `F77` appears as the text `None` in the compiler fragment, because the
  source formats `os.getenv(...)` with `%s`. It does not become an empty string.
- `SOFTROOTLAPACK` is tested for truthiness, so a variable set to the empty string counts as
  missing.
- `configure` stays in `obj` when it succeeds. A failed `chdir('..')` after the shared-library
  make leaves the build inside `lib`. The step does not put the working directory back on
  every path.
- `setparallelism` takes no requested value. It sets parallelism to 1 whatever it was before.
- The sanity-check paths are ordered lists inside a dictionary, not sets.
- A prior `runtest` value only draws a warning. It is then overwritten three times.

## Model

| member | source | states |
|---|---|---|
| `Atlas.AtlasBuild.constructor` | easybuild/easyblocks/a/ATLAS.py:13-20 | the three ATLAS options start as ignorethrottling = false, full_lapack = false, sharedlibs = true; the generic configuration is taken as given |
| `Atlas.AtlasBuild.AppendOptions` | easybuild/easyblocks/a/ATLAS.py:24-44 | appends the option fragments in order; when full_lapack is set and SOFTROOTLAPACK is not, it reports false and only "-b 64" and the optional "-Si cputhrchk 0" have been appended |
| `Atlas.AtlasBuild.Configure` | easybuild/easyblocks/a/ATLAS.py:22-74 | missing LAPACK gives MissingDependency with no directory change and no command; an obj creation or entry failure gives EnvironmentSetupError, carrying the OSError text, and no command; otherwise the fragments plus the compiler fragment are appended, the build enters obj, exactly one configure command is issued with the fully accumulated options, and the outcome is the verdict on (out, ec) |
| `Atlas.ConfigureFragmentsOrder` | easybuild/easyblocks/a/ATLAS.py:25-58 | "-b 64" is first and the compiler fragment last; the length is 2 plus one for each condition that holds; the optional fragments sit in source order |
| `Atlas.ConfigureFragmentsMembership` | easybuild/easyblocks/a/ATLAS.py:27-44 | "-Si cputhrchk 0" is present iff ignorethrottling; "-Fa alg -fPIC" iff sharedlibs or pic; a netlib LAPACK fragment is present only when full_lapack finds SOFTROOTLAPACK, and it is then <root>/lib/liblapack.a |
| `Atlas.JoinAppend` | easybuild/easyblocks/a/ATLAS.py:25-58 | appending a fragment to the list extends the rendered configopts string by one space and that fragment |
| `Atlas.CommandEndsWithCompilers` | easybuild/easyblocks/a/ATLAS.py:55-62 | the configure command ends with " -C ic <CC> -C if <F77>", so it uses the options accumulated up to and including the compiler fragment |
| `Atlas.ConfigureVerdict` | easybuild/easyblocks/a/ATLAS.py:65-74 | the outcome is Ok iff the exit code is 0; on a nonzero code it is the throttling message when the output matches the pattern, and otherwise a ConfigureFailed message that contains the raw output |
| `Throttling.Reported` | easybuild/easyblocks/a/ATLAS.py:66-67 | the search succeeds iff the pattern occurs somewhere in the output |
| `Throttling.LowerIgnoresCase` | easybuild/easyblocks/a/ATLAS.py:66 | IGNORECASE folding: two characters fold alike exactly when they are equal or are the two cases of one ASCII letter |
| `Throttling.LetterRunEnd` | easybuild/easyblocks/a/ATLAS.py:66 | returns the end of the maximal run of [a-zA-Z] starting at a position: all letters before it, a non-letter or the end at it |
| `Throttling.MatchStartsAtCorrect` | easybuild/easyblocks/a/ATLAS.py:66 | taking the letter run greedily finds a match at a position iff some letter run gives one |
| `Throttling.SearchFromCorrect` | easybuild/easyblocks/a/ATLAS.py:66-67 | scanning from position i succeeds iff a match starts at or after i |
| `Throttling.OccursNeedsLength` | easybuild/easyblocks/a/ATLAS.py:66 | any text the pattern matches is at least 23 characters long |
| `Throttling.WasEnabledIsReported` | easybuild/easyblocks/a/ATLAS.py:66-67 | "CPU Throttling was enabled" is recognised as throttling, in mixed case |
| `Throttling.SingleSpaceIsNotReported` | easybuild/easyblocks/a/ATLAS.py:66-67 | "cpu throttling enabled", with one space, is not recognised: the pattern needs a space on each side of the letter run |
| `Atlas.AtlasBuild.SetParallelism` | easybuild/easyblocks/a/ATLAS.py:78-80 | parallelism becomes 1 whatever it was, and one informational message is logged |
| `Atlas.AtlasBuild.Make` | easybuild/easyblocks/a/ATLAS.py:82-101 | the default make runs first; only with sharedlibs, the build enters lib, runs "make shared cshared ptshared cptshared" and returns to the directory it started in; failing to enter lib is an error with no shared make; failing to leave it is an error after the shared make |
| `Atlas.AtlasBuild.Test` | easybuild/easyblocks/a/ATLAS.py:103-119 | the default test runs exactly three times, on check, ptcheck and time in that order, whatever runtest was; a non-empty prior runtest adds one warning |
| `Atlas.AtlasBuild.SanityCheck` | easybuild/easyblocks/a/ATLAS.py:123-145 | unset (empty) sanity-check paths become the ATLAS default for the current sharedlibs; set ones are kept; the default sanity check then runs on the paths |
| `Manifest.DefaultPaths` | easybuild/easyblocks/a/ATLAS.py:129-141 | the default paths have exactly the keys files and dirs, with dirs = ["include/atlas"]; files has 14 entries with sharedlibs and 8 without, holds both headers, holds lib/lib<x>.a for each of the six libraries, holds lib/lib<x>.so iff sharedlibs, and without sharedlibs nothing in it ends in .so |
| `Manifest.FilesLayout` | easybuild/easyblocks/a/ATLAS.py:129-140 | files are include/cblas.h and include/clapack.h, then lib/lib<x>.a for the six libraries in order, then lib/lib<x>.so for them only with sharedlibs: 14 files with shared libraries, 8 without |
| `Manifest.StaticManifestHasNoSharedObjects` | easybuild/easyblocks/a/ATLAS.py:133-136 | without sharedlibs, no required file ends in .so |
| `Manifest.LibrariesRequired` | easybuild/easyblocks/a/ATLAS.py:129-136 | for either value of sharedlibs, each library is required as .a, and as .so iff sharedlibs |

## Left out

- Running commands (`run_cmd`), `os.makedirs`, `os.chdir` and `os.getenv`: they are inputs (results and an environment map). The model does not track the filesystem, so a created `obj` that could not be entered is not recorded.
- The `Application` base class is not part of this model. Its `make`, `test` and `sanitycheck` steps are recorded as trace events. Any failure inside them is not modelled, and neither is its own parallelism logic. Its `setparallelism(self, 1)` is modelled as setting parallelism to 1.
- `updatecfg` belongs to the base class. It is modelled as appending one fragment to a list. `Atlas.Join` renders the list with one space between fragments, which is an assumption about the base class's exact whitespace.
- What `run_cmd` itself does when the shared-library make fails (`log_all=True`). The easyblock ignores that command's result.
- Debug messages and the informational message listing the customised sanity-check paths (line 143). The model keeps only the `setparallelism` info message and the `runtest` warning.
- The default install step, which the easyblock does not override.
- General regular expressions. Only the one fixed pattern is modelled, with ASCII case folding. The source's `except OSError, err` syntax is Python 2, and there `IGNORECASE` on a byte string folds ASCII only.
- Atlas.AtlasBuild.Make: line 92 formats its message with `%` but has no `%s`. In Python that raises a TypeError instead of logging. The model reports the failure to enter `lib` as an `EnvironmentSetupError` carrying the message text.
- Manifest.Formatted: has no contract. It is the list comprehension itself, and `Manifest.FilesLayout` states what its results contain.
- Atlas.LapackRoot: has no contract. It is a definition, the truthiness test on SOFTROOTLAPACK (lines 35-37). `Atlas.ConfigureFragmentsMembership` states what it decides about the options.
- Throttling.Lower: has no contract. It is a definition, ASCII lower-casing. `Throttling.LowerIgnoresCase` states the case folding it gives.
