/** The JVM lifecycle driven through JNI: create the VM, attach, optionally install the main class's loader as
    the thread's context loader, marshal the arguments, call `main`, and recover an uncaught exception. */
module Bootstrap {
  import opened Wrappers
  import opened Platform
  import opened Paths
  import opened Config
  import opened LaunchPlan
  import opened JvmOptions
  import opened Marshal

  /** The foreign calls whose failure stops the launcher, one per call site. */
  datatype JniCall =
    | BuildInitArgs | CreateVm | AttachThread
    | FindMainClass | GetClassLoader | CurrentThreadForLoader | SetContextClassLoader
    | NewEmptyString | NewObjectArray | CallMain
    | ExceptionCheck | ExceptionOccurred | FindThreadClass | CurrentThreadForDispatch | DispatchUncaught
    | ExceptionClear

  /** The panic message each failing call produces. */
  function Message(c: JniCall): string
  {
    match c
    case BuildInitArgs => "Failed to buid VM properties"
    case CreateVm => "Failed to create a new JavaVM"
    case AttachThread => "Failed to attach the current thread"
    case FindMainClass => "Failed to get main class"
    case GetClassLoader => "Failed to get class loader from main class"
    case CurrentThreadForLoader => "Failed to get current thread"
    case SetContextClassLoader => "Failed to set class loader"
    case NewEmptyString => "called `Result::unwrap()` on an `Err` value"
    case NewObjectArray => "Failed to create method arguments"
    case CallMain => "Failed to call main method"
    case ExceptionCheck => "Failed to check for exception"
    case ExceptionOccurred => "Failed to retrieve occurred exception"
    case FindThreadClass => "Failed to retrieve thread class"
    case CurrentThreadForDispatch => "Failed to get current thread"
    case DispatchUncaught => "Failed to dispatch uncaught exception"
    case ExceptionClear => "Failed to clear the exception"
  }

  /** How a launch ends: it runs to completion, or a setup step panics with a message. */
  datatype Outcome = Completed | Panicked(message: string)

  /** The first call of `steps` that fails decides the outcome; no later call is made. */
  function OutcomeOf(steps: seq<JniCall>, failing: set<JniCall>): (r: Outcome)
    ensures r.Completed? <==> forall i :: 0 <= i < |steps| ==> steps[i] !in failing
    decreases |steps|
  {
    if |steps| == 0 then Completed
    else if steps[0] in failing then Panicked(Message(steps[0]))
    else OutcomeOf(steps[1..], failing)
  }

  /** A failing call preceded only by calls that succeed decides the outcome. */
  lemma {:induction false} FirstFailingDecides(steps: seq<JniCall>, k: nat, failing: set<JniCall>)
    requires k < |steps| && steps[k] in failing
    requires forall i :: 0 <= i < k ==> steps[i] !in failing
    ensures OutcomeOf(steps, failing) == Panicked(Message(steps[k]))
    decreases k
  {
    if k > 0 {
      FirstFailingDecides(steps[1..], k - 1, failing);
    }
  }

  /** Running two call sequences one after the other: the second runs only if the first completed. */
  lemma {:induction false} OutcomeOfAppend(a: seq<JniCall>, b: seq<JniCall>, failing: set<JniCall>)
    ensures OutcomeOf(a + b, failing) == if OutcomeOf(a, failing).Panicked? then OutcomeOf(a, failing)
                                         else OutcomeOf(b, failing)
    decreases |a|
  {
    if |a| > 0 {
      assert (a + b)[0] == a[0] && (a + b)[1..] == a[1..] + b;
      OutcomeOfAppend(a[1..], b, failing);
    } else {
      assert a + b == b;
    }
  }

  /** The calls made after `main` returns: the check, and the dispatch sequence when an exception is pending. */
  function RecoverySteps(exceptionPending: bool): seq<JniCall>
  {
    [ExceptionCheck]
      + (if exceptionPending
         then [ExceptionOccurred, FindThreadClass, CurrentThreadForDispatch, DispatchUncaught, ExceptionClear]
         else [])
  }

  /** Every foreign call of one launch, in the order the launcher makes them. */
  function LaunchSteps(useMainAsContextClassLoader: bool, mainThrows: bool): seq<JniCall>
  {
    INIT_STEPS + (LoaderSteps(useMainAsContextClassLoader) + (INVOKE_STEPS + RecoverySteps(mainThrows)))
  }

  /** An exception object thrown inside the JVM. */
  datatype Throwable = Throwable(id: nat)

  /** The entry point's invocation: the internal class name and the argument array. */
  datatype Invocation = Invocation(mainClass: string, arguments: seq<string>)

  /** The JVM seen through JNI. The constants fix how the foreign calls behave: which of them fail, what the
      entry point throws, and which argument indices fail to convert to JVM strings. */
  class JavaVm {
    const failing: set<JniCall>
    const mainThrows: Option<Throwable>
    const failedConversions: set<nat>

    var library: Option<string>
    var options: seq<string>
    var attached: bool
    var contextLoaderIsMains: bool
    var invoked: Option<Invocation>
    var pending: Option<Throwable>
    var dispatched: seq<Throwable>

    /** No JVM has been created in this process yet. */
    predicate Idle()
      reads this
    {
      library == None && options == [] && !attached && !contextLoaderIsMains && invoked == None
      && pending == None && dispatched == []
    }

    constructor (failing: set<JniCall>, mainThrows: Option<Throwable>, failedConversions: set<nat>)
      ensures Idle()
      ensures this.failing == failing && this.mainThrows == mainThrows
      ensures this.failedConversions == failedConversions
    {
      this.failing := failing;
      this.mainThrows := mainThrows;
      this.failedConversions := failedConversions;
      library := None;
      options := [];
      attached := false;
      contextLoaderIsMains := false;
      invoked := None;
      pending := None;
      dispatched := [];
    }
  }

  /** The calls that fail for a launch with these arguments: the configured failures, and the array creation
      when the argument count cast to `i32` is negative. */
  function Failing(vm: JavaVm, args: seq<string>): set<JniCall>
  {
    vm.failing + (if AsI32(|args|) < 0 then {NewObjectArray} else {})
  }

  /** The state after a launch that ran to completion. */
  ghost predicate Launched(vm: JavaVm, os: Os, version: OsVersion, l: Launch)
    reads vm
  {
    && vm.library == Some(Join(os, l.runtimeDir, JvmLibraryFileName(os)))
    && vm.options == Options(os, version, l.classPath, l.vmArgs, l.useZgcIfSupported)
    && vm.attached
    && vm.contextLoaderIsMains == l.useMainAsContextClassLoader
    && MethodArguments(l.args, vm.failedConversions).Some?
    && vm.invoked == Some(Invocation(l.mainClass, MethodArguments(l.args, vm.failedConversions).value))
    && vm.pending == None
    && vm.dispatched == vm.mainThrows.ToSeq()
  }

  /** After `main` returns: a pending exception is handed once to `Thread.dispatchUncaughtException` and then
      cleared, so nothing is left pending. */
  method RecoverUncaught(vm: JavaVm) returns (r: Outcome)
    modifies vm`pending, vm`dispatched
    ensures r == OutcomeOf(RecoverySteps(old(vm.pending).Some?), vm.failing)
    ensures r.Completed? ==> vm.pending == None && vm.dispatched == old(vm.dispatched) + old(vm.pending).ToSeq()
    ensures old(vm.pending).None? ==> vm.dispatched == old(vm.dispatched) && vm.pending == None
  {
    var steps := RecoverySteps(vm.pending.Some?);
    if ExceptionCheck in vm.failing {
      return Panicked(Message(ExceptionCheck));
    }
    if vm.pending.None? {
      return Completed;
    }
    assert steps == [ExceptionCheck, ExceptionOccurred, FindThreadClass, CurrentThreadForDispatch,
                     DispatchUncaught, ExceptionClear];
    var exception := vm.pending.value;
    if ExceptionOccurred in vm.failing {
      return Panicked(Message(ExceptionOccurred));
    }
    if FindThreadClass in vm.failing {
      FirstFailingDecides(steps, 2, vm.failing);
      return Panicked(Message(FindThreadClass));
    }
    if CurrentThreadForDispatch in vm.failing {
      FirstFailingDecides(steps, 3, vm.failing);
      return Panicked(Message(CurrentThreadForDispatch));
    }
    if DispatchUncaught in vm.failing {
      FirstFailingDecides(steps, 4, vm.failing);
      return Panicked(Message(DispatchUncaught));
    }
    vm.dispatched := vm.dispatched + [exception];
    if ExceptionClear in vm.failing {
      FirstFailingDecides(steps, 5, vm.failing);
      return Panicked(Message(ExceptionClear));
    }
    vm.pending := None;
    return Completed;
  }

  const INIT_STEPS: seq<JniCall> := [BuildInitArgs, CreateVm, AttachThread]

  function LoaderSteps(useMainAsContextClassLoader: bool): seq<JniCall>
  {
    if useMainAsContextClassLoader
    then [FindMainClass, GetClassLoader, CurrentThreadForLoader, SetContextClassLoader]
    else []
  }

  const INVOKE_STEPS: seq<JniCall> := [NewEmptyString, NewObjectArray, CallMain]

  /** Calls outside `extra` decide the same way whether or not `extra` also fails. */
  lemma {:induction false} OutcomeOfIgnores(steps: seq<JniCall>, failing: set<JniCall>, extra: set<JniCall>)
    requires forall i :: 0 <= i < |steps| ==> steps[i] !in extra
    ensures OutcomeOf(steps, failing + extra) == OutcomeOf(steps, failing)
    decreases |steps|
  {
    if |steps| > 0 {
      OutcomeOfIgnores(steps[1..], failing, extra);
    }
  }

  /** Build the initialisation arguments, create the VM from the runtime directory's library, attach. */
  method InitializeVm(vm: JavaVm, os: Os, version: OsVersion, l: Launch) returns (r: Outcome)
    modifies vm`library, vm`options, vm`attached
    ensures r == OutcomeOf(INIT_STEPS, vm.failing)
    ensures r.Completed? ==>
      && vm.library == Some(Join(os, l.runtimeDir, JvmLibraryFileName(os)))
      && vm.options == Options(os, version, l.classPath, l.vmArgs, l.useZgcIfSupported)
      && vm.attached
  {
    var initArgs := JvmOptions.BuildInitArgs(os, version, l.classPath, l.vmArgs, l.useZgcIfSupported);
    if BuildInitArgs in vm.failing {
      return Panicked(Message(BuildInitArgs));
    }
    if CreateVm in vm.failing {
      return Panicked(Message(CreateVm));
    }
    vm.library := Some(Join(os, l.runtimeDir, JvmLibraryFileName(os)));
    vm.options := initArgs.options;
    if AttachThread in vm.failing {
      FirstFailingDecides(INIT_STEPS, 2, vm.failing);
      return Panicked(Message(AttachThread));
    }
    vm.attached := true;
    return Completed;
  }

  /** `Thread.currentThread().setContextClassLoader(MainClass.class.getClassLoader())`, when requested. */
  method FixContextLoader(vm: JavaVm, l: Launch) returns (r: Outcome)
    modifies vm`contextLoaderIsMains
    ensures r == OutcomeOf(LoaderSteps(l.useMainAsContextClassLoader), vm.failing)
    ensures r.Completed? ==> vm.contextLoaderIsMains == (old(vm.contextLoaderIsMains) || l.useMainAsContextClassLoader)
  {
    if !l.useMainAsContextClassLoader {
      return Completed;
    }
    var steps := LoaderSteps(true);
    if FindMainClass in vm.failing {
      return Panicked(Message(FindMainClass));
    }
    if GetClassLoader in vm.failing {
      return Panicked(Message(GetClassLoader));
    }
    if CurrentThreadForLoader in vm.failing {
      FirstFailingDecides(steps, 2, vm.failing);
      return Panicked(Message(CurrentThreadForLoader));
    }
    if SetContextClassLoader in vm.failing {
      FirstFailingDecides(steps, 3, vm.failing);
      return Panicked(Message(SetContextClassLoader));
    }
    vm.contextLoaderIsMains := true;
    return Completed;
  }

  /** Convert the arguments, create the `String[]` pre-filled with "", fill it, and call `main` with it;
      whatever `main` throws is left pending. */
  method InvokeMain(vm: JavaVm, l: Launch) returns (r: Outcome)
    modifies vm`invoked, vm`pending
    ensures r == OutcomeOf(INVOKE_STEPS, Failing(vm, l.args))
    ensures r.Completed? ==>
      && MethodArguments(l.args, vm.failedConversions).Some?
      && vm.invoked == Some(Invocation(l.mainClass, MethodArguments(l.args, vm.failedConversions).value))
      && vm.pending == vm.mainThrows
  {
    var jstrings := Survivors(l.args, vm.failedConversions);
    if NewEmptyString in vm.failing {
      return Panicked(Message(NewEmptyString));
    }
    var length := AsI32(|l.args|);
    if length < 0 || NewObjectArray in vm.failing {
      return Panicked(Message(NewObjectArray));
    }
    var methodArgs := new string[length](_ => "");
    FillArgs(methodArgs, jstrings);
    assert methodArgs[..] == MethodArguments(l.args, vm.failedConversions).value;
    if CallMain in vm.failing {
      FirstFailingDecides(INVOKE_STEPS, 2, Failing(vm, l.args));
      return Panicked(Message(CallMain));
    }
    vm.invoked := Some(Invocation(l.mainClass, methodArgs[..]));
    vm.pending := vm.mainThrows;
    return Completed;
  }

  /** `start_jvm`: every foreign call in order, stopping at the first that fails. */
  method StartJvm(vm: JavaVm, os: Os, version: OsVersion, l: Launch) returns (r: Outcome)
    requires vm.Idle()
    modifies vm
    ensures r == OutcomeOf(LaunchSteps(l.useMainAsContextClassLoader, vm.mainThrows.Some?), Failing(vm, l.args))
    ensures r.Completed? ==> Launched(vm, os, version, l)
  {
    var failing := Failing(vm, l.args);
    var extra := failing - vm.failing;
    assert extra <= {NewObjectArray} && failing == vm.failing + extra;
    var loaderSteps := LoaderSteps(l.useMainAsContextClassLoader);
    var recoverySteps := RecoverySteps(vm.mainThrows.Some?);
    OutcomeOfAppend(INIT_STEPS, loaderSteps + (INVOKE_STEPS + recoverySteps), failing);
    OutcomeOfAppend(loaderSteps, INVOKE_STEPS + recoverySteps, failing);
    OutcomeOfAppend(INVOKE_STEPS, recoverySteps, failing);
    OutcomeOfIgnores(INIT_STEPS, vm.failing, extra);
    OutcomeOfIgnores(loaderSteps, vm.failing, extra);
    OutcomeOfIgnores(recoverySteps, vm.failing, extra);

    r := InitializeVm(vm, os, version, l);
    if r.Panicked? {
      return;
    }
    r := FixContextLoader(vm, l);
    if r.Panicked? {
      return;
    }
    r := InvokeMain(vm, l);
    if r.Panicked? {
      return;
    }
    r := RecoverUncaught(vm);
  }

  /** `parse_options_and_start`: read the configuration next to the executable, build the launch, start the
      JVM. An unreadable configuration panics before any JVM interaction. */
  method ParseOptionsAndStart(vm: JavaVm, host: Host, readConfig: string -> Option<RawConfig>) returns (r: Outcome)
    requires vm.Idle()
    requires IsFileName(host.os, host.exeFileName)
    requires WellFormed(host.os, readConfig(ConfigPath(host.os, host.exeDir, host.exeFileName)))
    modifies vm
    ensures var config := readConfig(ConfigPath(host.os, host.exeDir, host.exeFileName));
      match BuildLaunch(host, config)
      case Err(message) => r == Panicked(message) && vm.Idle()
      case Ok(l) =>
        && r == OutcomeOf(LaunchSteps(l.useMainAsContextClassLoader, vm.mainThrows.Some?), Failing(vm, l.args))
        && (r.Completed? ==> Launched(vm, host.os, host.version, l))
  {
    var config := readConfig(ConfigPath(host.os, host.exeDir, host.exeFileName));
    var launch := BuildLaunch(host, config);
    match launch {
      case Err(message) =>
        r := Panicked(message);
      case Ok(l) =>
        r := StartJvm(vm, host.os, host.version, l);
    }
  }

  /** An entry point that throws: the exception is dispatched once, nothing stays pending, and a second
      post-invocation check finds nothing to dispatch. */
  method UncaughtExceptionScenario()
  {
    var vm := new JavaVm({}, Some(Throwable(7)), {});
    var l := Launch("/opt/app/runtime/lib/server", ["/opt/app/a.jar"], "com/foo/Main", [], ["--verbose"], false, false);
    var r := StartJvm(vm, Linux, OsVersion(0, 0, 0, 0), l);
    assert LaunchSteps(false, true) == [BuildInitArgs, CreateVm, AttachThread, NewEmptyString, NewObjectArray,
      CallMain, ExceptionCheck, ExceptionOccurred, FindThreadClass, CurrentThreadForDispatch, DispatchUncaught,
      ExceptionClear];
    assert r == Completed;
    assert vm.dispatched == [Throwable(7)] && vm.pending == None;
    var again := RecoverUncaught(vm);
    assert again == Completed && vm.dispatched == [Throwable(7)];
  }
}
