/** KernelBootstrapper: the host-side object that creates the kernel's
    application domain, instantiates the kernel engine ("turbine") in it,
    starts it, and restarts it on request or after a failed start.  The
    domain, the engine, the restart timer and the configuration are
    effects recorded in an event trace; the event callbacks, which run on
    other threads, are methods the environment calls one at a time. */
module Hosting {
  import opened Common
  import opened Text

  // ---------------------------------------------------------------------
  // The engine type id

  /** The class and assembly that `CreateInstanceAndUnwrap` is asked for. */
  datatype EngineType = EngineType(className: string, assemblyName: string)

  /** The names used when the setting cannot be split. */
  const DefaultEngineType := EngineType("PortSys.Tac.ClientServices.Kernel.Turbine", "PortSys.Tac.ClientServices.Kernel")

  /** The split of the `engineTypeId` setting in `Boot`: the class is the
      first comma-separated segment, trimmed; the assembly is the text from
      index (length of the trimmed class + 1) on, trimmed.  `None` when that
      index is past the end, where `Substring` throws. */
  function SplitEngineTypeId(id: string): (r: Option<EngineType>)
    ensures r.None? <==> |Trim(FirstSegment(id, ','), WhiteSpace)| + 1 > |id|
    ensures r.Some? ==> r.value.className == Trim(FirstSegment(id, ','), WhiteSpace)
    ensures r.Some? ==>
              && ',' !in r.value.className
              && (r.value.className == [] || (r.value.className[0] !in WhiteSpace && r.value.className[|r.value.className| - 1] !in WhiteSpace))
              && |r.value.className| + 1 <= |id|
              && r.value.assemblyName == Trim(id[|r.value.className| + 1..], WhiteSpace)
  {
    var className := Trim(FirstSegment(id, ','), WhiteSpace);
    if |className| + 1 > |id| then None
    else
      TrimKeepsAbsent(FirstSegment(id, ','), WhiteSpace, ',');
      Some(EngineType(className, Trim(id[|className| + 1..], WhiteSpace)))
  }

  /** The names `Boot` passes on: a missing setting (the `null` that makes
      `Split` throw) or a failed split falls back to the defaults. */
  function EngineTypeNames(engineTypeId: Option<string>): EngineType {
    match engineTypeId
    case None => DefaultEngineType
    case Some(id) => SplitEngineTypeId(id).GetOr(DefaultEngineType)
  }

  /** The first segment ends at the first separator. */
  lemma FirstSegmentUpToSeparator(s: string, n: nat)
    requires n < |s| && s[n] == ',' && ',' !in s[..n]
    ensures FirstSegment(s, ',') == s[..n]
  {
  }

  /** A trimmed class name, a comma and an assembly name: the class name and
      the trimmed assembly name. */
  lemma {:induction false} SplitsAtComma(className: string, assemblyName: string)
    requires ',' !in className
    requires className == [] || (className[0] !in WhiteSpace && className[|className| - 1] !in WhiteSpace)
    ensures SplitEngineTypeId(className + "," + assemblyName) == Some(EngineType(className, Trim(assemblyName, WhiteSpace)))
  {
    var id := className + [','] + assemblyName;
    assert id[..|className|] == className;
    FirstSegmentUpToSeparator(id, |className|);
    assert id[|className| + 1..] == assemblyName;
  }

  /** A missing setting, or one without a comma and without surrounding
      white space, leaves no room for an assembly name: the defaults are
      used. */
  lemma NoCommaFallsBack(id: string)
    requires ',' !in id
    requires id == [] || (id[0] !in WhiteSpace && id[|id| - 1] !in WhiteSpace)
    ensures SplitEngineTypeId(id).None?
    ensures EngineTypeNames(Some(id)) == EngineTypeNames(None)
  {
    assert FirstSegment(id, ',') == id;
  }

  /** A blank, a trimmed class name, a comma and an assembly name: the class
      name is found, but the cut falls one character early. */
  lemma {:induction false} SplitAfterBlank(className: string, assemblyName: string)
    requires className != [] && ',' !in className
    requires className[0] !in WhiteSpace && className[|className| - 1] !in WhiteSpace
    ensures SplitEngineTypeId([' '] + className + [','] + assemblyName)
            == Some(EngineType(className, Trim([','] + assemblyName, WhiteSpace)))
  {
    var head, tail := [' '] + className, [','] + assemblyName;
    var id := head + tail;
    assert id == [' '] + className + [','] + assemblyName;
    assert id[..|head|] == head && id[|head|..] == tail;
    FirstSegmentUpToSeparator(id, |head|);
    TrimLeadingBlank(className, WhiteSpace, ' ');
  }

  /** White space before the class name shifts the cut: the assembly name
      then starts with the comma. */
  lemma LeadingBlankKeepsComma(className: string, assemblyName: string)
    requires className != [] && ',' !in className
    requires className[0] !in WhiteSpace && className[|className| - 1] !in WhiteSpace
    ensures SplitEngineTypeId(" " + className + "," + assemblyName).Some?
    ensures var t := SplitEngineTypeId(" " + className + "," + assemblyName).value;
            && t.className == className
            && t.assemblyName != [] && t.assemblyName[0] == ','
  {
    SplitAfterBlank(className, assemblyName);
    assert [' '] + className + [','] + assemblyName == " " + className + "," + assemblyName;
    CommaIsNotWhiteSpace();
    TrimKeepsFirst([','] + assemblyName, WhiteSpace);
  }

  // ---------------------------------------------------------------------
  // The bootstrapper's state and its effects

  /** `RestartSecond`, a System.Timers.Timer. */
  datatype RestartTimer = RestartTimer(enabled: bool, disposed: bool)

  /** One effect on the application domain, the engine or the timer. */
  datatype KernelEvent =
    | CreatePartition
    | CreateInstance(engineType: EngineType)
    | RunTurbine
    | SetRebootDelegate
    | DisposeTurbine
    | DetachUnloadHandler
    | UnloadPartition
    | CreateTimer
    | EnableTimer
    | DisableTimer
    | DisposeTimer

  /** What one `Boot` meets: the `engineTypeId` setting, whether the engine
      could be instantiated, whether the configuration loads, and whether
      the engine's `Run` throws. */
  datatype BootHost = BootHost(engineTypeId: Option<string>, turbineCreated: bool, configValid: bool, runThrows: bool)

  /** The bootstrapper's fields: whether `KernelPartition` and
      `KernelTurbine` are set, `Rebooting`, `RestartSecond`, whether the
      engine's `RebootDelegate` was set, and the effects so far. */
  datatype Kernel = Kernel(
    partition: bool,
    turbine: bool,
    rebooting: bool,
    restartSecond: Option<RestartTimer>,
    rebootDelegate: bool,
    events: seq<KernelEvent>)

  /** `Rebooting` is only ever set while a partition exists. */
  predicate Consistent(k: Kernel) {
    k.rebooting ==> k.partition
  }

  const PartitionExistsMessage := "Kernel partition already exists."

  /** `InitializeRestart`: create the timer if there is none, then enable it. */
  function InitializeRestart(k: Kernel): (r: Kernel)
    ensures r.restartSecond.Some? && r.restartSecond.value.enabled
    ensures r.restartSecond.value.disposed <==> k.restartSecond.Some? && k.restartSecond.value.disposed
    ensures r == k.(restartSecond := r.restartSecond, events := r.events)
    ensures r.events == k.events + (if k.restartSecond.None? then [CreateTimer, EnableTimer] else [EnableTimer])
  {
    var created := if k.restartSecond.None? then k.(restartSecond := Some(RestartTimer(false, false)), events := k.events + [CreateTimer]) else k;
    created.(restartSecond := Some(created.restartSecond.value.(enabled := true)), events := created.events + [EnableTimer])
  }

  /** Whether enabling the timer in `InitializeRestart` throws: the `Enabled`
      setter of a System.Timers.Timer stores the new value and then throws
      ObjectDisposedException when the timer was disposed and was not
      already enabled. Creating the timer is taken to succeed, so a timer
      created here is never disposed. */
  predicate EnablingThrows(k: Kernel) {
    k.restartSecond.Some? && k.restartSecond.value.disposed && !k.restartSecond.value.enabled
  }

  /** How `InitializeRestart` ends; the state it leaves is `InitializeRestart`'s
      either way. */
  function RestartOutcome(k: Kernel): (o: Outcome)
    ensures o.Fail? <==> EnablingThrows(k)
    ensures o.Fail? ==> o.error == ObjectDisposed
  {
    if k.restartSecond.None? || k.restartSecond.value.enabled then Pass
    else if k.restartSecond.value.disposed then Fail(ObjectDisposed)
    else Pass
  }

  /** `DisposeRestartSecond`: dispose the timer if there is one, keeping the
      reference. */
  function DisposeRestartSecond(k: Kernel): (r: Kernel)
    ensures k.restartSecond.None? ==> r == k
    ensures k.restartSecond.Some? ==>
              r == k.(restartSecond := Some(RestartTimer(false, true)), events := k.events + [DisposeTimer])
  {
    if k.restartSecond.None? then k
    else k.(restartSecond := Some(RestartTimer(false, true)), events := k.events + [DisposeTimer])
  }

  /** Whether `Start` returns normally: there is an engine, and unless the
      configuration fails to load its `Run` does not throw. */
  predicate Started(k: Kernel, host: BootHost) {
    (k.turbine || host.turbineCreated) && !(host.configValid && host.runThrows)
  }

  /** The effects of `Boot` on a kernel without a partition, up to the
      end of `Start`. */
  function BootEvents(k: Kernel, host: BootHost): seq<KernelEvent> {
    [CreatePartition, CreateInstance(EngineTypeNames(host.engineTypeId))]
    + (if (k.turbine || host.turbineCreated) && host.configValid then [RunTurbine] else [])
  }

  /** `Boot` up to the engine's creation: the partition exists and the
      engine is set if it was created (a stale one is kept otherwise). */
  function Instantiated(k: Kernel, host: BootHost): Kernel {
    k.(partition := true, turbine := k.turbine || host.turbineCreated,
       events := k.events + [CreatePartition, CreateInstance(EngineTypeNames(host.engineTypeId))])
  }

  /** `Start` on an instantiated kernel: the engine runs when the
      configuration loads. */
  function Ran(k: Kernel, host: BootHost): Kernel {
    k.(events := k.events + (if host.configValid then [RunTurbine] else []))
  }

  /** `Boot`: refused while a partition exists; otherwise create the
      partition, instantiate the engine from the configured (or default)
      names, start it, and on success set the reboot delegate and dispose
      the restart timer; with no engine, or when `Start` throws, arm the
      restart timer instead. */
  function BootKernel(k: Kernel, host: BootHost): (r: Kernel)
    ensures k.partition ==> r == k
    ensures k.events <= r.events
    ensures r.partition && r.rebooting == k.rebooting
    ensures !k.partition ==> r.turbine == (k.turbine || host.turbineCreated)
    ensures !k.partition && Started(k, host) ==>
              r.rebootDelegate && r.restartSecond == DisposeRestartSecond(k).restartSecond
    ensures !k.partition && !Started(k, host) ==>
              r.rebootDelegate == k.rebootDelegate && r.restartSecond.Some? && r.restartSecond.value.enabled
  {
    if k.partition then k
    else
      var created := Instantiated(k, host);
      if !created.turbine then InitializeRestart(created)
      else
        var ran := Ran(created, host);
        if host.configValid && host.runThrows then InitializeRestart(ran)
        else DisposeRestartSecond(ran.(rebootDelegate := true, events := ran.events + [SetRebootDelegate]))
  }

  /** How `Boot` ends: refused while a partition exists; otherwise it
      throws exactly when it has to arm a timer that was disposed. */
  function BootOutcome(k: Kernel, host: BootHost): (o: Outcome)
    ensures k.partition <==> o == Fail(InvalidOperation(PartitionExistsMessage))
    ensures !k.partition ==> (o.Fail? <==> !Started(k, host) && EnablingThrows(k))
    ensures !k.partition && o.Fail? ==> o.error == ObjectDisposed
  {
    if k.partition then Fail(InvalidOperation(PartitionExistsMessage))
    else
      var created := Instantiated(k, host);
      if !created.turbine then RestartOutcome(created)
      else if host.configValid && host.runThrows then RestartOutcome(Ran(created, host))
      else Pass
  }

  /** The effects of a `Boot` that is not refused: the partition, the
      engine's creation and run, then either the reboot delegate and the
      timer's disposal, or the timer's creation (if needed) and enabling. */
  lemma BootEffects(k: Kernel, host: BootHost)
    requires !k.partition
    ensures Started(k, host) ==>
              BootKernel(k, host).events
              == k.events + BootEvents(k, host) + [SetRebootDelegate] + (if k.restartSecond.Some? then [DisposeTimer] else [])
    ensures !Started(k, host) ==>
              BootKernel(k, host).events
              == k.events + BootEvents(k, host) + (if k.restartSecond.None? then [CreateTimer, EnableTimer] else [EnableTimer])
  {
    var engine := CreateInstance(EngineTypeNames(host.engineTypeId));
    var run: seq<KernelEvent> := if (k.turbine || host.turbineCreated) && host.configValid then [RunTurbine] else [];
    AppendAssoc(k.events, [CreatePartition, engine], run);
    if k.turbine || host.turbineCreated {
      assert Ran(Instantiated(k, host), host).events == k.events + BootEvents(k, host);
    } else {
      assert Instantiated(k, host).events == k.events + BootEvents(k, host);
    }
  }

  /** `Reboot`: dispose and clear the engine; then boot directly when there
      is no partition, or mark the reboot and unload the partition. */
  function RebootKernel(k: Kernel, host: BootHost): (r: Kernel)
    ensures Consistent(r)
    ensures r.restartSecond == k.restartSecond || !k.partition
    ensures k.partition ==>
              r == k.(turbine := false, rebooting := true,
                      events := k.events + (if k.turbine then [DisposeTurbine] else []) + [UnloadPartition])
    ensures !k.partition ==>
              r == BootKernel(k.(turbine := false, events := k.events + (if k.turbine then [DisposeTurbine] else [])), host)
  {
    var released := k.(turbine := false, events := k.events + (if k.turbine then [DisposeTurbine] else []));
    if !released.partition then BootKernel(released, host)
    else released.(rebooting := true, events := released.events + [UnloadPartition])
  }

  /** How `Reboot` ends: an unload never throws; a direct boot throws as
      `Boot` does, on a kernel whose engine was released. */
  function RebootOutcome(k: Kernel, host: BootHost): (o: Outcome)
    ensures k.partition ==> o == Pass
    ensures !k.partition ==> (o.Fail? <==> !Started(k.(turbine := false), host) && EnablingThrows(k))
    ensures o.Fail? ==> o.error == ObjectDisposed
  {
    var released := if k.turbine then k.(turbine := false, events := k.events + [DisposeTurbine]) else k;
    if !released.partition then BootOutcome(released, host) else Pass
  }

  /** The domain-unload handler: clear the partition; if a reboot was
      requested, clear the flag and boot. */
  function DomainUnloaded(k: Kernel, host: BootHost): (r: Kernel)
    ensures !k.rebooting ==> r == k.(partition := false)
    ensures k.rebooting ==> r == BootKernel(k.(partition := false, rebooting := false), host)
    ensures Consistent(r) && !r.rebooting
  {
    var unloaded := k.(partition := false);
    if unloaded.rebooting then BootKernel(unloaded.(rebooting := false), host) else unloaded
  }

  /** How the domain-unload handler ends: the boot it makes, if any, throws
      exactly when it has to arm a disposed timer. */
  function DomainUnloadedOutcome(k: Kernel, host: BootHost): (o: Outcome)
    ensures !k.rebooting ==> o == Pass
    ensures k.rebooting ==> (o.Fail? <==> !Started(k, host) && EnablingThrows(k))
    ensures o.Fail? ==> o.error == ObjectDisposed
  {
    if k.rebooting then BootOutcome(k.(partition := false, rebooting := false), host) else Pass
  }

  /** The restart timer's handler: disable the timer, then reboot. */
  function RestartTimeElapsed(k: Kernel, host: BootHost): (r: Kernel)
    requires k.restartSecond.Some?
  {
    RebootKernel(k.(restartSecond := Some(k.restartSecond.value.(enabled := false)), events := k.events + [DisableTimer]), host)
  }

  /** How the restart timer's handler ends: as the reboot it makes. */
  function RestartElapsedOutcome(k: Kernel, host: BootHost): (o: Outcome)
    requires k.restartSecond.Some?
    ensures o.Fail? ==> !k.partition && k.restartSecond.value.disposed && o.error == ObjectDisposed
  {
    RebootOutcome(k.(restartSecond := Some(k.restartSecond.value.(enabled := false)), events := k.events + [DisableTimer]), host)
  }

  /** Every step keeps `Rebooting` confined to times when a partition exists. */
  lemma StepsKeepConsistent(k: Kernel, host: BootHost)
    requires Consistent(k)
    ensures Consistent(BootKernel(k, host))
    ensures Consistent(RebootKernel(k, host))
    ensures Consistent(DomainUnloaded(k, host))
    ensures k.restartSecond.Some? ==> Consistent(RestartTimeElapsed(k, host))
  {
  }

  /** The timer's handler disables the timer before anything `Reboot` does. */
  lemma TimerDisabledFirst(k: Kernel, host: BootHost)
    requires k.restartSecond.Some?
    ensures k.events + [DisableTimer] <= RestartTimeElapsed(k, host).events
  {
    var disabled := k.(restartSecond := Some(k.restartSecond.value.(enabled := false)), events := k.events + [DisableTimer]);
    var released := if disabled.turbine then disabled.(turbine := false, events := disabled.events + [DisposeTurbine]) else disabled;
    assert disabled.events <= released.events;
    assert released.events <= RebootKernel(disabled, host).events;
  }

  /** The reboot handshake: with a partition in place, `Reboot` followed by
      the unload notification disposes the engine, unloads, and boots again
      on a kernel without a partition, so that boot is never refused. */
  lemma RebootHandshake(k: Kernel, h1: BootHost, h2: BootHost)
    requires k.partition && !k.rebooting
    ensures var cleared := k.(partition := false, turbine := false,
                              events := k.events + (if k.turbine then [DisposeTurbine] else []) + [UnloadPartition]);
            && DomainUnloaded(RebootKernel(k, h1), h2) == BootKernel(cleared, h2)
            && !cleared.partition
            && BootKernel(cleared, h2).turbine == h2.turbineCreated
  {
  }

  /** A boot that finds no engine leaves an armed timer; when it fires and
      the domain has unloaded, the next boot starts from a kernel with no
      partition and no engine. */
  lemma FailedBootRetries(k: Kernel, h1: BootHost, h2: BootHost, h3: BootHost)
    requires !k.partition && !k.turbine && !k.rebooting && !h1.turbineCreated
    ensures var booted := BootKernel(k, h1);
            && booted.partition && !booted.turbine && booted.restartSecond.Some? && booted.restartSecond.value.enabled
            && var fired := RestartTimeElapsed(booted, h2);
               && fired.rebooting && fired.partition && fired.events[|fired.events| - 1] == UnloadPartition
               && DomainUnloaded(fired, h3)
                  == BootKernel(fired.(partition := false, rebooting := false), h3)
  {
  }

  /** `Boot` disposes the timer on success but keeps the reference, so once
      a boot succeeds after a failed one, a later reboot whose engine cannot
      be created enables a disposed timer: `Boot` throws
      ObjectDisposedException out of the unload handler, and no timer is
      left to retry. */
  lemma DisposedTimerRearmed(k: Kernel, h1: BootHost, h2: BootHost, h3: BootHost)
    requires !k.partition && !k.rebooting && k.restartSecond.Some?
    requires Started(k, h1) && !h3.turbineCreated
    ensures var booted := BootKernel(k, h1);
            var rebooted := RebootKernel(booted, h2);
            && BootOutcome(k, h1) == Pass
            && booted.restartSecond == Some(RestartTimer(false, true))
            && RebootOutcome(booted, h2) == Pass && rebooted.rebooting
            && DomainUnloadedOutcome(rebooted, h3) == Fail(ObjectDisposed)
            && DomainUnloaded(rebooted, h3).restartSecond == Some(RestartTimer(true, true))
  {
    var booted := BootKernel(k, h1);
    assert booted.partition && !booted.rebooting;
    var rebooted := RebootKernel(booted, h2);
    assert rebooted.restartSecond == booted.restartSecond && !rebooted.turbine;
  }

  /** `DisposeRestartSecond` with the reference cleared once the timer is
      disposed, so that the next `InitializeRestart` creates a new one. */
  function CorrectedDisposeRestartSecond(k: Kernel): (r: Kernel)
    ensures r.restartSecond.None?
    ensures r == k.(restartSecond := None, events := r.events)
    ensures r.events == k.events + (if k.restartSecond.Some? then [DisposeTimer] else [])
  {
    if k.restartSecond.None? then k
    else k.(restartSecond := None, events := k.events + [DisposeTimer])
  }

  /** With the reference cleared, arming the retry after a disposal never
      throws and leaves a live, enabled timer, whatever the timer was. */
  lemma CorrectedTimerRearmed(k: Kernel)
    ensures var disposed := CorrectedDisposeRestartSecond(k);
            && RestartOutcome(disposed) == Pass
            && InitializeRestart(disposed).restartSecond == Some(RestartTimer(true, false))
            && InitializeRestart(disposed).events == disposed.events + [CreateTimer, EnableTimer]
  {
    var disposed := CorrectedDisposeRestartSecond(k);
    assert !EnablingThrows(disposed);
  }

  class KernelBootstrapper {
    var partition: bool
    var turbine: bool
    var rebooting: bool
    var restartSecond: Option<RestartTimer>
    var rebootDelegate: bool
    var events: seq<KernelEvent>

    /** The fields, as a value. */
    function State(): Kernel
      reads this
    {
      Kernel(partition, turbine, rebooting, restartSecond, rebootDelegate, events)
    }

    constructor ()
      ensures State() == Kernel(false, false, false, None, false, [])
    {
      partition, turbine, rebooting := false, false, false;
      restartSecond, rebootDelegate, events := None, false, [];
    }

    /** `InitializeRestart`: the setter stores `Enabled` before it can throw. */
    method InitializeRestartSecond() returns (outcome: Outcome)
      modifies this
      ensures State() == InitializeRestart(old(State()))
      ensures outcome == RestartOutcome(old(State()))
    {
      if restartSecond.None? {
        restartSecond := Some(RestartTimer(false, false));
        events := events + [CreateTimer];
      }
      var wasEnabled := restartSecond.value.enabled;
      restartSecond := Some(restartSecond.value.(enabled := true));
      events := events + [EnableTimer];
      if restartSecond.value.disposed && !wasEnabled {
        return Fail(ObjectDisposed);
      }
      outcome := Pass;
    }

    method DisposeRestartSecondTimer()
      modifies this
      ensures State() == DisposeRestartSecond(old(State()))
    {
      if restartSecond.Some? {
        restartSecond := Some(RestartTimer(false, true));
        events := events + [DisposeTimer];
      }
    }

    /** `Boot`. */
    method Boot(host: BootHost) returns (outcome: Outcome)
      modifies this
      ensures State() == BootKernel(old(State()), host)
      ensures outcome == BootOutcome(old(State()), host)
    {
      if partition {
        return Fail(InvalidOperation(PartitionExistsMessage));
      }
      ghost var k := State();

      partition := true;
      events := events + [CreatePartition];

      var engineType := EngineTypeNames(host.engineTypeId);
      events := events + [CreateInstance(engineType)];
      if host.turbineCreated {
        turbine := true;
      }
      assert State() == Instantiated(k, host);

      outcome := Pass;
      if !turbine {
        outcome := InitializeRestartSecond();
      } else {
        if host.configValid {
          events := events + [RunTurbine];
        }
        assert State() == Ran(Instantiated(k, host), host);
        if host.configValid && host.runThrows {
          outcome := InitializeRestartSecond();
        } else {
          rebootDelegate := true;
          events := events + [SetRebootDelegate];
          DisposeRestartSecondTimer();
        }
      }
    }

    /** `Reboot`. */
    method Reboot(host: BootHost) returns (outcome: Outcome)
      modifies this
      ensures State() == RebootKernel(old(State()), host)
      ensures outcome == RebootOutcome(old(State()), host)
    {
      ghost var k := State();
      if turbine {
        turbine := false;
        events := events + [DisposeTurbine];
      }
      assert State() == k.(turbine := false, events := k.events + (if k.turbine then [DisposeTurbine] else []));
      outcome := Pass;
      if !partition {
        outcome := Boot(host);
      } else {
        rebooting := true;
        events := events + [UnloadPartition];
      }
    }

    /** `KernelPartition_DomainUnload`. */
    method KernelPartitionDomainUnload(host: BootHost) returns (outcome: Outcome)
      modifies this
      ensures State() == DomainUnloaded(old(State()), host)
      ensures outcome == DomainUnloadedOutcome(old(State()), host)
    {
      partition := false;
      outcome := Pass;
      if rebooting {
        rebooting := false;
        outcome := Boot(host);
      }
    }

    /** `RestartSecond_TimeElapsed`; the timer exists whenever it fires. */
    method RestartSecondTimeElapsed(host: BootHost) returns (outcome: Outcome)
      requires restartSecond.Some?
      modifies this
      ensures State() == RestartTimeElapsed(old(State()), host)
      ensures outcome == RestartElapsedOutcome(old(State()), host)
    {
      restartSecond := Some(restartSecond.value.(enabled := false));
      events := events + [DisableTimer];
      outcome := Reboot(host);
    }

    /** `Dispose`: dispose the timer; then, if a partition exists, dispose
        the engine, detach the unload handler and unload the partition. */
    method Dispose()
      modifies this
      ensures var k := DisposeRestartSecond(old(State()));
              State() == if !k.partition then k
                         else k.(turbine := false,
                                 events := k.events + (if k.turbine then [DisposeTurbine] else [])
                                           + [DetachUnloadHandler, UnloadPartition])
    {
      DisposeRestartSecondTimer();
      if partition {
        if turbine {
          turbine := false;
          events := events + [DisposeTurbine];
        }
        events := events + [DetachUnloadHandler, UnloadPartition];
      }
    }
  }
}
