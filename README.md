# roast launcher — a Dafny model of the launch plan and the JVM bootstrap

roast is a native launcher that starts a bundled Java runtime through JNI. It reads a JSON configuration
next to the executable (`app/<exe name>.json`). From it the launcher builds the classpath, the JVM
option list, the entry class's internal name and the argument vector. It then creates the JVM and
attaches its thread. When asked to, it makes the main class's loader the thread's context class loader.
Finally it passes the arguments as a `String[]`, calls `main`, and sends any uncaught exception to the
thread's uncaught-exception handler.

This project models that logic from `src/main.rs`, one module per component:

- `Platform`: the classpath delimiter, the runtime location, the app folder, the JVM library name,
  the Windows version type and the ZGC support gate. The current OS and its version are parameters.
- `Paths`: paths as strings, joined the way Rust's `PathBuf::push` joins a relative path, including
  the bare-drive case (`C:` joined with `x` is `C:x`). Separators are `\` (written) and `/` on Windows,
  and `/` elsewhere. This module also has `file_stem` and
  `with_extension`.
- `Text`: joining with a delimiter (with `Split` as its inverse), and one-character replacement.
- `Config`: the deserialised configuration (two mandatory fields, four optional ones) and how the
  defaults apply. There is one configuration layer and no override merge.
- `LaunchPlan`: the runtime directory, the configuration path and its error message, classpath
  resolution, the internal main-class name, the CLI arguments and the whole `Launch` record.
- `JvmOptions`: the JNI initialisation arguments. `BuildInitArgs` is a loop that adds one option per
  VM argument.
- `Marshal`: the `filter_map` of string conversions, the `as i32` length cast, and the counter loop
  that fills the pre-filled array in place (`FillArgs` on an `array<string>`).
- `Bootstrap`: the JVM seen through JNI, as a class `JavaVm`. Three constants fix how the foreign calls
  behave: which calls fail, what `main` throws, and which argument conversions fail. There is one
  method per phase of `start_jvm`. A launch's outcome is decided by the first failing call in call
  order (`OutcomeOf`, `LaunchSteps`).

Paths in classpath entries must be relative. `Join` requires this: for an absolute argument, Rust's
`join` replaces the base instead, and the model does not describe that.

The option list is specified with the ordered steps spelled out. The two ZGC options are the last
two options when ZGC is enabled. Whether ZGC is enabled or not, the list has either 3 + |vmArgs|
options or 1 + |vmArgs|. A plain "the last two options are the ZGC ones iff ZGC is enabled" would
be false: a user's VM arguments may themselves end with those two strings.

## Model

| member | source | states |
|---|---|---|
| Platform.ClassPathDelimiter | src/main.rs:32-35 | the delimiter is one character: `;` exactly on Windows, `:` on Linux and macOS |
| Platform.RuntimeLocation | src/main.rs:37-42 | three segments `runtime`, then `bin` on Windows or `lib` elsewhere, then `server` |
| Platform.JvmLibraryFileName | src/main.rs:76-78 | the library loaded from the runtime directory is `jvm.dll` exactly on Windows, `libjvm.dylib` exactly on macOS and `libjvm.so` exactly on Linux |
| Platform.AtLeast | src/main.rs:178 | the `>=` of the derived order on `OsVersion`: fields compared in declaration order (its meaning is proved in AtLeastIsRankOrder and AtLeastIsTotalOrder) |
| Platform.Rank | src/main.rs:178 | the version packed base 2^32, most significant field first: the independent reference order for AtLeast |
| Platform.IsZgcSupported | src/main.rs:173-184 | the ZGC gate: on Windows the current version is at least 10.0.0.17134, on Linux and macOS always true (proved in ZgcWindowsByRank and ZgcAlwaysOnPosix) |
| Platform.AtLeastIsRankOrder | src/main.rs:178 | the derived lexicographic order on (major, minor, pack, build) is the numeric order of the version packed base 2^32 |
| Platform.AtLeastIsTotalOrder | src/main.rs:178 | that order is reflexive, antisymmetric, transitive and total |
| Platform.ZgcWindowsThreshold | src/main.rs:173-179 | on Windows build 10.0.0.17133 is refused and 10.0.0.17134 accepted (inclusive), later builds accepted, 6.3 refused |
| Platform.ZgcWindowsByRank | src/main.rs:173-179 | on Windows ZGC is supported iff the version ranks at or above 10.0.0.17134 |
| Platform.ZgcSupportMonotone | src/main.rs:173-184 | support is upward closed in the version order |
| Platform.ZgcAlwaysOnPosix | src/main.rs:181-184 | on Linux and macOS ZGC is supported for every version |
| Paths.IsRelative | src/main.rs:197 | a path with no root and no drive prefix, the kind whose `join` extends the base |
| Paths.IsBareDrive | src/main.rs:197 | a Windows path that is only a drive prefix such as `C:` |
| Paths.NeedsSeparator | src/main.rs:197 | `push` needs a separator after a non-empty base that neither ends in one nor is a bare drive |
| Paths.SeparatorAfter | src/main.rs:197-200 | `join` inserts at most one separator, the main one, and inserts it exactly when NeedsSeparator holds |
| Paths.Join | src/main.rs:197-200 | `base.join(rel)` for a relative `rel`: the base, the separator SeparatorAfter calls for, then `rel` (its laws are JoinKeepsRelative and JoinAssociative) |
| Paths.JoinExamples | src/main.rs:197 | on Windows `C:` + `x` is `C:x`, `C:\` + `x` is `C:\x` and `C:\d` + `x` is `C:\d\x`; on Linux `/d` + `x` is `/d/x` and the empty path + `x` is `x` |
| Paths.JoinKeepsRelative | src/main.rs:197 | a relative path joined onto a relative base stays relative |
| Paths.JoinAssociative | src/main.rs:197 | pushing `b` then `c` equals pushing the path `b` joined with `c` |
| Paths.Collect | src/main.rs:197 | `collect::<PathBuf>()`: the segments pushed in turn onto an empty path |
| Paths.CollectIsRelative | src/main.rs:197 | collecting relative segments into a `PathBuf` gives a relative path |
| Paths.LastIndexOf | src/main.rs:200 | the index of the last occurrence of a character, or -1 when it is absent |
| Paths.FileStem | src/main.rs:200 | the stem is a prefix of the name, non-empty when the name is; a shorter stem ends right before the name's last '.'; the whole name is kept only when it has no '.' after its first character or is `..` |
| Paths.WithExtension | src/main.rs:200 | the name's stem followed by `.` and the extension (or the stem alone for an empty extension) |
| Paths.WithExtensionStem | src/main.rs:200 | re-extending keeps the stem, and replacing the extension twice is the same as once |
| Paths.WithExtensionExamples | src/main.rs:200 | `roast.exe` and `roast` both become `roast.json`, `my.app.exe` becomes `my.app.json`, `.launcher` becomes `.launcher.json` |
| Text.IndexOf | src/main.rs:59 | the first index of a character, or the length when it is absent |
| Text.JoinWith | src/main.rs:59 | `join(CLASS_PATH_DELIMITER)`: one part gives itself and no parts give the empty string (Split is its inverse, see SplitJoin) |
| Text.Split | src/main.rs:59 | splitting always yields at least one piece |
| Text.SplitJoin | src/main.rs:57-60 | joining parts free of a one-character delimiter, then splitting on it, gives the parts back |
| Text.Replace | src/main.rs:218 | replacement keeps the length, maps each `from` to `to` and leaves every other character unchanged |
| Text.ReplaceRemoves | src/main.rs:218 | after replacement no `from` character remains |
| Text.ReplaceInverse | src/main.rs:218 | replacing back undoes the replacement when the target character was absent |
| Text.ReplaceAppend | src/main.rs:218 | replacement distributes over concatenation |
| Text.ReplaceIdempotent | src/main.rs:218 | replacing twice equals replacing once |
| Config.ApplyDefaults | src/main.rs:12-19 | mandatory fields pass through; an absent list becomes empty and an absent flag false; present values are kept |
| Config.DefaultsOfExplicit | src/main.rs:219-222 | defaulting a configuration that spells out every field gives exactly those values |
| Config.AbsentEqualsDefault | src/main.rs:219-222 | an absent optional field and one set to its default value yield the same settings |
| LaunchPlan.IsFileName | src/main.rs:200 | what `file_name()` yields: one non-empty component with no separator, and on Windows no drive colon |
| LaunchPlan.JsonNameIsRelative | src/main.rs:200 | a file name and its `.json` sibling are relative paths |
| LaunchPlan.RuntimeSegmentsArePlain | src/main.rs:37-42 | the runtime location's segments are non-empty relative names that do not end in a separator |
| LaunchPlan.CollectThree | src/main.rs:197 | collecting three plain names gives them separated by the main separator |
| LaunchPlan.RuntimeDir | src/main.rs:197 | the executable's directory joined with the collected runtime location (its shape is RuntimeDirShape) |
| LaunchPlan.RuntimeDirShape | src/main.rs:197 | the runtime directory is `exeDir/runtime/{bin,lib}/server` with the platform's separator |
| LaunchPlan.ConfigPath | src/main.rs:198-200 | the directory joined with `app`, joined with the executable's name re-extended to `.json` (its shape is ConfigPathShape) |
| LaunchPlan.ConfigPathShape | src/main.rs:198-200 | the configuration path is `exeDir/app/<exe stem>.json` |
| LaunchPlan.ConfigErrorMessage | src/main.rs:201-206 | the fatal message for an unreadable configuration is the fixed prefix followed by exactly the path that was read |
| LaunchPlan.ConfigErrorMessageAsWritten | src/main.rs:201-206 | the message exactly as the source formats it: prefix, directory, `/app/`, then the whole executable path re-extended to `.json` (the as-written half of the finding) |
| LaunchPlan.ConfigErrorMessageAsWrittenIsWrong | src/main.rs:201-206 | the message as formatted in the source is \|exeDir\| + 1 characters longer than the path read, so it never names it |
| LaunchPlan.ConfigErrorMessageExample | src/main.rs:201-206 | for `/d/x` on Linux the file read is `/d/app/x.json` while the message as written reports `/d/app//d/x.json` |
| LaunchPlan.ResolveClassPath | src/main.rs:207-217 | resolution keeps the count and order; element i is the executable's directory joined with entry i |
| LaunchPlan.ClassPathExample | src/main.rs:207-217 | `lib/a.jar`, `lib/b.jar` under `/opt/app` on Linux join to `/opt/app/lib/a.jar:/opt/app/lib/b.jar` |
| LaunchPlan.InternalName | src/main.rs:218 | the internal name keeps the length, contains no '.', has '/' where the input has '.' and the input's character elsewhere |
| LaunchPlan.InternalNameOfQualified | src/main.rs:218 | `a.b` becomes internal(a) + "/" + internal(b) |
| LaunchPlan.InternalNameInvertible | src/main.rs:218 | a dotted name without '/' is recovered from its internal name |
| LaunchPlan.CliArgs | src/main.rs:194 | the command-line arguments are the process arguments after the program name (none if there are none) |
| LaunchPlan.WellFormed | src/main.rs:207-217 | what the model asks of a configuration that was read: every classpath entry is a relative path |
| LaunchPlan.BuildLaunch | src/main.rs:195-231 | a missing configuration is the fatal error with the corrected message naming the configuration path (the source's own text is ConfigErrorMessageAsWritten, see Findings); otherwise the launch holds the runtime directory, the resolved classpath, the internal name, defaulted VM args and flags, and configured args followed by CLI args |
| LaunchPlan.BuildLaunchCorrectsMessage | src/main.rs:198-206 | with no configuration the launch fails with the message naming the path read, and that message is never the source's as-written text |
| LaunchPlan.ArgumentOrderExample | src/main.rs:194-229 | configured `["--headless"]` and command line `launcher --verbose` give `["--headless", "--verbose"]` |
| JvmOptions.ClassPathOption | src/main.rs:57-60 | `-Djava.class.path=` followed by the resolved entries joined with the platform delimiter |
| JvmOptions.ZgcEnabled | src/main.rs:66 | ZGC is switched on exactly when the configuration asks for it and the platform supports it |
| JvmOptions.Options | src/main.rs:55-70 | the option list: the classpath option, the VM args, then the two ZGC options when ZGC is enabled (proved in OptionsLayout) |
| JvmOptions.OptionsLayout | src/main.rs:55-70 | the classpath option is first; the VM args follow verbatim and in order; the list is 3 + \|vmArgs\| long iff ZGC is requested and supported (then the last two are the unlock and ZGC options), and 1 + \|vmArgs\| otherwise |
| JvmOptions.ClassPathOptionDecodes | src/main.rs:57-60 | the classpath option is `-Djava.class.path=` followed by a value that splits back into the resolved entries when none contains the delimiter |
| JvmOptions.BuildInitArgs | src/main.rs:55-70 | the builder loop yields JNI version 1.8 and exactly the option list `Options` |
| Marshal.AsI32 | src/main.rs:130 | `as i32` is congruent to its input modulo 2^32, lies in the i32 range and is the identity below 2^31 |
| Marshal.AsI32Negative | src/main.rs:130 | argument counts from 2^31 to 2^32 - 1 cast to a negative length |
| Marshal.Survivors | src/main.rs:122-126 | at most as many strings survive as there are arguments, and all of them when no conversion fails |
| Marshal.SurvivingIndices | src/main.rs:122-126 | the surviving indices are in range, not failed and strictly increasing |
| Marshal.SurvivingIndicesComplete | src/main.rs:122-126 | every index whose conversion succeeded is among them |
| Marshal.SurvivorsAreSubsequence | src/main.rs:122-126 | survivor j is the argument at the j-th surviving index: nothing reordered, nothing invented |
| Marshal.MethodArguments | src/main.rs:128-137 | the array `main` receives: `as i32` slots of "" overlaid with the converted strings, or none when that length is negative (proved in MethodArgumentsShape) |
| Marshal.Overlay | src/main.rs:133-137 | the old array with its first slots replaced by the written strings, in order, and no slot added |
| Marshal.MethodArgumentsShape | src/main.rs:122-137 | below 2^31 arguments the array has one slot per argument, the converted strings fill a prefix in order and every later slot holds "" |
| Marshal.MethodArgumentsAllConverted | src/main.rs:122-137 | with every conversion succeeding `main` receives exactly the argument vector |
| Marshal.MethodArgumentsShiftExample | src/main.rs:122-137 | `["a", "b", "c"]` with "a" failing marshals to `["b", "c", ""]` |
| Marshal.FillArgs | src/main.rs:133-137 | the counter loop leaves the array equal to the old contents overlaid with the strings at indices 0, 1, …; writes past the end are dropped |
| Bootstrap.Message | src/main.rs:73-170 | the panic text of each call site, the `expect` strings verbatim (including the source's "buid") |
| Bootstrap.LoaderSteps | src/main.rs:84-120 | the four context-loader calls, made only when requested |
| Bootstrap.RecoverySteps | src/main.rs:146-170 | the exception check, then the five dispatch calls only when an exception is pending |
| Bootstrap.LaunchSteps | src/main.rs:46-171 | every foreign call of a launch in the order `start_jvm` makes them |
| Bootstrap.Failing | src/main.rs:128-131 | the calls that fail: the configured ones, plus the array creation when the argument count cast to `i32` is negative |
| Bootstrap.OutcomeOf | src/main.rs:73-170 | a call sequence completes iff none of its calls fails |
| Bootstrap.FirstFailingDecides | src/main.rs:73-170 | a failing call preceded only by succeeding calls decides the panic message |
| Bootstrap.OutcomeOfAppend | src/main.rs:73-170 | the second part of a sequence runs only when the first part completed |
| Bootstrap.OutcomeOfIgnores | src/main.rs:129-131 | failures of calls that a sequence does not make do not change its outcome |
| Bootstrap.JavaVm.Idle | src/main.rs:46-54 | the state before `start_jvm`: no library loaded, no options, not attached, nothing invoked, pending or dispatched |
| Bootstrap.JavaVm.constructor | src/main.rs:46-54 | a fresh VM is idle and carries the given failing calls, thrown exception and failed conversions |
| Bootstrap.Launched | src/main.rs:73-170 | the state a completed launch leaves: library and options, attachment, context loader as requested, the invocation with the marshalled array, every thrown exception dispatched once, none pending |
| Bootstrap.InitializeVm | src/main.rs:55-82 | build, create and attach in order; on success the VM was loaded from `runtimeDir/<jvm library>` with the option list `Options`, and the thread is attached |
| Bootstrap.FixContextLoader | src/main.rs:84-120 | the loader calls run only when requested and their first failure decides the outcome; on success a requested switch makes the main class's loader the context loader, and otherwise the loader is unchanged |
| Bootstrap.InvokeMain | src/main.rs:122-144 | the array is created only with a non-negative `i32` length; on success `main` of the internal class was called with the marshalled array and whatever it threw is pending |
| Bootstrap.RecoverUncaught | src/main.rs:146-170 | a pending exception is dispatched exactly once and then cleared, leaving none pending; with none pending nothing is dispatched |
| Bootstrap.StartJvm | src/main.rs:46-171 | the outcome is that of the first failing call in launch order; a completed launch leaves the VM loaded, configured, attached, invoked with the marshalled array, every thrown exception dispatched once and none pending |
| Bootstrap.ParseOptionsAndStart | src/main.rs:192-233 | an unreadable configuration panics, before any JVM interaction, with the corrected message naming the path read (see Findings); otherwise the built launch is started as `StartJvm` states |
| Bootstrap.UncaughtExceptionScenario | src/main.rs:146-170 | a launch whose `main` throws completes with the exception dispatched exactly once and nothing pending, and a second check dispatches nothing |

## Left out

- JNI is not reimplemented (`JavaVM::with_libjvm`, `attach_current_thread`, `find_class`, `call_method`,
  `call_static_method`, `new_string`, `new_object_array`, the exception functions). Each call is a
  success or a failure fixed by `JavaVm.failing`. What `main` throws is `JavaVm.mainThrows`, and which
  conversions fail is `JavaVm.failedConversions`.
- Bootstrap.InvokeMain: the model does not say whether the JNI wrapper reports a Java exception thrown
  by `main` as an error of `call_static_method`. That depends on the crate, which is not part of this
  model. The model takes a completed call with the exception left pending, which is what the recovery
  code expects.
- Bootstrap.RecoverUncaught: `exception_occurred` (src/main.rs:150-152) does not clear the exception.
  If the crate's checked calls report a pending exception as an error, then `find_class` and
  `call_static_method` at src/main.rs:154-159 fail too, and the dispatch at src/main.rs:161-167 is
  never reached. The model lets those calls succeed unless `JavaVm.failing` names them.
- LaunchPlan.BuildLaunch: for an unreadable configuration it returns the corrected `ConfigErrorMessage`.
  It does not return the source's text `ConfigErrorMessageAsWritten` (see Findings). For `/d/x` the
  model says `/d/app/x.json` where the source says `/d/app//d/x.json`; `BuildLaunchCorrectsMessage`
  states the difference.
- Bootstrap.ParseOptionsAndStart: panics with that same corrected message, not with the source's text.
- File reading and JSON parsing in `read_config` are I/O and library code. `ParseOptionsAndStart` takes
  the reader as a function from path to `Option<RawConfig>`. A missing file, malformed JSON and a
  missing mandatory field all reach it as `None`.
- `env::current_exe`, `Path::parent` and `file_name`: the executable's directory and file name are
  inputs (`Host`). The `expect("Exe must be in a directory")` failure is not modelled.
- `env::args` and `env_logger::init` are process plumbing. The process arguments are an input, and
  the panic on non-Unicode arguments is not modelled.
- `into_os_string().into_string().unwrap()` on resolved classpath entries: paths are strings here, so
  the panic on non-UTF-8 paths is not modelled.
- `Join` requires a relative argument. The case where Rust's `join` replaces the base with an absolute
  or drive-prefixed entry is not modelled.
- Paths.Join: Rust's `push` onto a verbatim base (`\\?\...`) rebuilds the pushed path component by
  component. The model treats such a base like any other.
- `OsVersion::current()` is an OS query. The version is a parameter.
- The thread spawned in `main` and its ignored `join` result are threading with no logic. A panic
  there ends only the spawned thread.
- The Windows GPU-preference statics and `build.rs` are linker exports, not runtime logic.
- Bootstrap.Message: each `expect` panics with its text, then `: ` and the error's debug form. Each
  `unwrap` panics with a fixed text followed by that form. The model keeps only the text, because the
  debug form depends on the JNI crate.
- `current_thread.l().unwrap()` at src/main.rs:162 has no `JniCall` of its own. A successful call to
  `currentThread` returns an object, so that conversion is taken to succeed.
- Marshal.FillArgs: the counter is an unbounded integer. The source's `i32` counter would overflow
  only after 2^31 converted arguments, which the negative array length already rules out below 2^32
  arguments.
- The configuration has a single layer. There is no override merge, no `runOnFirstThread` flag, no
  run-loop coordinator and no library-path environment update in this source.
- A string that fails to convert is dropped without an error, as the code does. It is not a fatal
  input error.

## Findings

| source | as written | input that shows it | evidently intended | confidence | as-written member | corrected member |
|---|---|---|---|---|---|---|
| src/main.rs:201-206 | the message formats the directory, `app`, then `current_exe.with_extension("json")`, which is the whole executable path | executable `/d/x` on Linux: the file read is `/d/app/x.json`, but the message says `Unable to read config file /d/app//d/x.json` | the message names the file that could not be read | high; not executed | LaunchPlan.ConfigErrorMessageAsWritten, LaunchPlan.ConfigErrorMessageAsWrittenIsWrong | LaunchPlan.ConfigErrorMessage |
