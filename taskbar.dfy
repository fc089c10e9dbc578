/**
  The `QTaskbarProgress` widget with Qt, the filesystem and D-Bus replaced by
  state: the current descriptor object (`generation`), the files that exist,
  the signals sent on the session bus, the local notifications emitted and
  what was written to the error stream. Every operation that sends or changes
  files is proved to follow the functions of the Emitter module; the checks
  and the error report touch only the notifications, the error stream and the
  trace.
*/
module Taskbar {
  import opened Launcher
  import opened Descriptor
  import opened Environment
  import opened Emitter

  const ErrorTxt: string := "QTaskbarProgress only works with KDE and Unity desktops on Linux!"
  const DBusHint: string := "Cannot connect to the D-Bus session bus.\nTo start it, run:\n\teval `dbus-launch --auto-syntax`\n"
  const TypeError: string := "TypeError"

  /** The widget's own signals, as its local observers receive them. */
  datatype Notification =
    | CounterChanged(counter: int)
    | CounterVisibleChanged(visible: bool)
    | ProgressChanged(progress: real)
    | ProgressVisibleChanged(visible: bool)
    | ErrorOccurred(message: string)

  /** One observable event, in the order it happens: a signal put on the
      session bus, or one of the widget's own signals emitted locally. */
  datatype Event = Bus(signal: Signal) | Local(notification: Notification)

  /** The bus events for signals sent in this order. */
  function Buses(ss: seq<Signal>): seq<Event>
  {
    seq(|ss|, k requires 0 <= k < |ss| => Bus(ss[k]))
  }

  /** The local events for notifications emitted in this order. */
  function Locals(ns: seq<Notification>): seq<Event>
  {
    seq(|ns|, k requires 0 <= k < |ns| => Local(ns[k]))
  }

  /** How a call returned to its Python caller. */
  datatype Outcome = Returned | Raised(exception: string)

  /** `sys.platform.startswith('linux')`. */
  predicate IsLinux(platform: string) {
    |platform| >= 5 && platform[..5] == "linux"
  }

  /** What `checkEnvironment` reports when the process object has `errorOccurred`. */
  function EnvironmentNotices(probe: Probe): seq<Notification> {
    if probe.hasErrorOccurred then [ErrorOccurred(probe.errorString)] else []
  }

  function EnvironmentStderr(probe: Probe): seq<string> {
    if probe.hasErrorOccurred then [probe.errorString] else []
  }

  /** What the bus check writes: the hint, only when the session bus is down. */
  function BusStderr(busConnected: bool): seq<string> {
    if busConnected then [] else [DBusHint]
  }

  class QTaskbarProgress {
    const host: Host
    var generation: nat
    var files: map<string, string>
    var signals: seq<Signal>
    var notifications: seq<Notification>
    var stderr: seq<string>
    /** Bus signals and local notifications interleaved in the order they happen. */
    ghost var trace: seq<Event>

    /** The part of the state the Emitter functions describe. */
    function Snapshot(): State
      reads this
    {
      State(generation, files, signals)
    }

    /** `desktopFilename()`: empty while the class-level `QFile` is current,
        afterwards a `.desktop` file in the applications directory. */
    function DesktopFilename(): (p: string)
      reads this
      ensures p == "" <==> generation == 0
      ensures generation > 0 ==> InDirectory(p, host.appDir) && EndsWith(p, DesktopSuffix)
    {
      Emitter.DesktopFilename(host, generation)
    }

    /** `self._desktopFile.exists()`. */
    predicate Exists()
      reads this
    {
      FileExists(host, Snapshot())
    }

    /** `__init__` as written. `checkDBus` never returns a value, so
        `checkEnvironment() and checkDBus()` is always falsy: on every platform
        construction takes an error path, creates no descriptor and sends
        nothing. The checks still run (with `and` short-circuiting) and leave
        their reports behind. */
    constructor (host: Host, platform: string, probe: Probe, busConnected: bool, disk: map<string, string>)
      ensures this.host == host
      ensures Snapshot() == State(0, disk, [])
      ensures OnlyCurrent(host, Snapshot())
      ensures trace == Locals(notifications)
      ensures !IsLinux(platform) ==> notifications == [ErrorOccurred(ErrorTxt)] && stderr == [ErrorTxt]
      ensures IsLinux(platform) ==> notifications == EnvironmentNotices(probe) + [ErrorOccurred(ErrorTxt)]
      ensures IsLinux(platform) ==>
        stderr == EnvironmentStderr(probe) + (if EnvironmentEligible(probe) then BusStderr(busConnected) else []) + [ErrorTxt]
    {
      this.host := host;
      generation, files, signals := 0, disk, [];
      notifications, stderr := [], [];
      trace := [];
      new;
      if !IsLinux(platform) {
        ReportError();
        return;
      }
      var eligible := CheckEnvironment(probe);
      if eligible {
        eligible := CheckDBus(busConnected);
      }
      assert !eligible;
      ReportError();
    }

    /** `__init__` with a bus check that answers whether the bus is connected:
        on an eligible Linux session with a live bus the descriptor is created
        and the reset is the only signal sent; otherwise the error is reported. */
    constructor WithBusCheck(host: Host, platform: string, probe: Probe, busConnected: bool, disk: map<string, string>)
      ensures this.host == host
      ensures OnlyCurrent(host, Snapshot())
      ensures IsLinux(platform) && EnvironmentEligible(probe) && busConnected ==>
        && Snapshot() == Initialized(host, State(0, disk, []))
        && Exists()
        && signals == [Update(CurrentAppId(host, 1), ResetAttributes())]
        && notifications == [] && stderr == []
        && trace == Buses(signals)
      ensures !(IsLinux(platform) && EnvironmentEligible(probe) && busConnected) ==>
        && Snapshot() == State(0, disk, [])
        && trace == Locals(notifications)
        && notifications == (if IsLinux(platform) then EnvironmentNotices(probe) else []) + [ErrorOccurred(ErrorTxt)]
        && stderr == (if IsLinux(platform) then EnvironmentStderr(probe) + (if EnvironmentEligible(probe) then BusStderr(busConnected) else []) else []) + [ErrorTxt]
    {
      this.host := host;
      generation, files, signals := 0, disk, [];
      notifications, stderr := [], [];
      trace := [];
      new;
      if !IsLinux(platform) {
        ReportError();
        return;
      }
      var eligible := CheckEnvironment(probe);
      if eligible {
        eligible := CheckDBusIntended(busConnected);
      }
      if eligible {
        InitDesktopFile();
      } else {
        ReportError();
      }
    }

    /** Emit `errorOccurred` with the fixed text and write it to the error stream. */
    method ReportError()
      modifies this`notifications, this`stderr, this`trace
      ensures notifications == old(notifications) + [ErrorOccurred(ErrorTxt)]
      ensures stderr == old(stderr) + [ErrorTxt]
      ensures trace == old(trace) + [Local(ErrorOccurred(ErrorTxt))]
    {
      notifications := notifications + [ErrorOccurred(ErrorTxt)];
      trace := trace + [Local(ErrorOccurred(ErrorTxt))];
      stderr := stderr + [ErrorTxt];
    }

    /** `checkEnvironment`: gives up, reporting the process error, when the
        process object has `errorOccurred`; otherwise, if the process is idle,
        runs the `pidof` scan. */
    method CheckEnvironment(probe: Probe) returns (eligible: bool)
      modifies this`notifications, this`stderr, this`trace
      ensures eligible == EnvironmentEligible(probe)
      ensures notifications == old(notifications) + EnvironmentNotices(probe)
      ensures stderr == old(stderr) + EnvironmentStderr(probe)
      ensures trace == old(trace) + Locals(EnvironmentNotices(probe))
    {
      if probe.hasErrorOccurred {
        notifications := notifications + [ErrorOccurred(probe.errorString)];
        trace := trace + [Local(ErrorOccurred(probe.errorString))];
        stderr := stderr + [probe.errorString];
        return false;
      }
      if probe.notRunning {
        eligible := ScanPidofResults(probe.pidof);
        return;
      }
      return false;
    }

    /** `checkDBus` as written: it writes the hint when the bus is down and in
        every case falls off its end, returning a falsy `None`. */
    method CheckDBus(busConnected: bool) returns (ok: bool)
      modifies this`stderr
      ensures !ok
      ensures stderr == old(stderr) + BusStderr(busConnected)
    {
      if !busConnected {
        stderr := stderr + [DBusHint];
      }
      ok := false;
    }

    /** `checkDBus` as its name promises: true exactly when the bus is connected. */
    method CheckDBusIntended(busConnected: bool) returns (ok: bool)
      modifies this`stderr
      ensures ok == busConnected
      ensures stderr == old(stderr) + BusStderr(busConnected)
    {
      if !busConnected {
        stderr := stderr + [DBusHint];
      }
      ok := busConnected;
    }

    /** `_initDesktopFile`: a new descriptor object on the next UUID's path,
        the document written if nothing exists there, then `_sendReset`. */
    method InitDesktopFile()
      modifies this`generation, this`files, this`signals, this`trace
      ensures Snapshot() == Initialized(host, old(Snapshot()))
      ensures trace == old(trace) + [Bus(Update(CurrentAppId(host, generation), ResetAttributes()))]
      decreases 2
    {
      generation := generation + 1;
      if !Exists() {
        files := files[DesktopFilename() := DescriptorText(host.appName(generation), host.appPath(generation))];
      }
      assert Exists();
      ghost var written := Snapshot();
      ghost var reset := Update(CurrentAppId(host, generation), ResetAttributes());
      assert Emission(host, written, ResetAttributes()) == [reset];
      assert Buses([reset]) == [Bus(reset)];
      SendReset();
    }

    /** `_sendReset`: send the four-key default map. */
    method SendReset()
      modifies this`generation, this`files, this`signals, this`trace
      ensures Snapshot() == Sent(host, old(Snapshot()), ResetAttributes())
      ensures trace == old(trace) + Buses(Emission(host, old(Snapshot()), ResetAttributes()))
      decreases if Exists() then 1 else 4
    {
      SendMessage(ResetAttributes());
    }

    /** `_sendMessage(params)`: recreate the descriptor if it is missing,
        then send `params` under the current application id. */
    method SendMessage(params: Attributes)
      modifies this`generation, this`files, this`signals, this`trace
      ensures Snapshot() == Sent(host, old(Snapshot()), params)
      ensures trace == old(trace) + Buses(Emission(host, old(Snapshot()), params))
      decreases if Exists() then 0 else 3
    {
      if !Exists() {
        InitDesktopFile();
      }
      signals := signals + [Update(CurrentAppId(host, generation), params)];
      trace := trace + [Bus(Update(CurrentAppId(host, generation), params))];
    }

    /** `_sendMessageAttribute(key, value)`: send the single-key map. */
    method SendMessageAttribute(key: string, value: Value)
      modifies this`generation, this`files, this`signals, this`trace
      ensures Snapshot() == Sent(host, old(Snapshot()), Attribute(key, value))
      ensures trace == old(trace) + Buses(Emission(host, old(Snapshot()), Attribute(key, value)))
    {
      SendMessage(Attribute(key, value));
    }

    /** `setProgressVisible`: send `{progress-visible: visible}`, then notify. */
    method SetProgressVisible(visible: bool)
      modifies this`generation, this`files, this`signals, this`notifications, this`trace
      ensures Snapshot() == Sent(host, old(Snapshot()), Attribute(ProgressVisibleKey, Bool(visible)))
      ensures notifications == old(notifications) + [ProgressVisibleChanged(visible)]
      ensures trace == old(trace) + Buses(Emission(host, old(Snapshot()), Attribute(ProgressVisibleKey, Bool(visible)))) + [Local(ProgressVisibleChanged(visible))]
    {
      SendMessageAttribute(ProgressVisibleKey, Bool(visible));
      notifications := notifications + [ProgressVisibleChanged(visible)];
      trace := trace + [Local(ProgressVisibleChanged(visible))];
    }

    /** `setProgress`: send `{progress: progress}`, then notify. */
    method SetProgress(progress: real)
      modifies this`generation, this`files, this`signals, this`notifications, this`trace
      ensures Snapshot() == Sent(host, old(Snapshot()), Attribute(ProgressKey, Double(progress)))
      ensures notifications == old(notifications) + [ProgressChanged(progress)]
      ensures trace == old(trace) + Buses(Emission(host, old(Snapshot()), Attribute(ProgressKey, Double(progress)))) + [Local(ProgressChanged(progress))]
    {
      SendMessageAttribute(ProgressKey, Double(progress));
      notifications := notifications + [ProgressChanged(progress)];
      trace := trace + [Local(ProgressChanged(progress))];
    }

    /** `setCounterVisible`: send `{count-visible: visible}`, then notify. */
    method SetCounterVisible(visible: bool)
      modifies this`generation, this`files, this`signals, this`notifications, this`trace
      ensures Snapshot() == Sent(host, old(Snapshot()), Attribute(CountVisibleKey, Bool(visible)))
      ensures notifications == old(notifications) + [CounterVisibleChanged(visible)]
      ensures trace == old(trace) + Buses(Emission(host, old(Snapshot()), Attribute(CountVisibleKey, Bool(visible)))) + [Local(CounterVisibleChanged(visible))]
    {
      SendMessageAttribute(CountVisibleKey, Bool(visible));
      notifications := notifications + [CounterVisibleChanged(visible)];
      trace := trace + [Local(CounterVisibleChanged(visible))];
    }

    /** `setCounter` as written: it calls `_sendMessageAttribute` on the class,
        so `'count'` binds to `self`, the value argument is missing and the
        call raises before anything is sent or notified; the method changes
        no state. */
    method SetCounter(counter: int) returns (outcome: Outcome)
      ensures outcome == Raised(TypeError)
    {
      outcome := Raised(TypeError);
    }

    /** `setCounter` as its siblings behave: send `{count: counter}`, then notify. */
    method SetCounterIntended(counter: int)
      modifies this`generation, this`files, this`signals, this`notifications, this`trace
      ensures Snapshot() == Sent(host, old(Snapshot()), Attribute(CountKey, Int(counter)))
      ensures notifications == old(notifications) + [CounterChanged(counter)]
      ensures trace == old(trace) + Buses(Emission(host, old(Snapshot()), Attribute(CountKey, Int(counter)))) + [Local(CounterChanged(counter))]
    {
      SendMessageAttribute(CountKey, Int(counter));
      notifications := notifications + [CounterChanged(counter)];
      trace := trace + [Local(CounterChanged(counter))];
    }

    /** `__del__`: remove the descriptor file if it exists. */
    method Delete()
      modifies this`files
      ensures Snapshot() == TornDown(host, old(Snapshot()))
    {
      if Exists() {
        files := files - {DesktopFilename()};
      }
    }
  }

  /** What callers can conclude from the contracts alone: a component built
      as written has sent nothing; its first update heals the missing
      descriptor with a reset; after the file is lost the next update moves
      to a new path; teardown removes the file and is then a no-op. */
  method LifecycleScenario(host: Host, probe: Probe, disk: map<string, string>)
    requires FreshNames(host)
  {
    var bar := new QTaskbarProgress(host, "linux", probe, true, disk);
    assert bar.signals == [] && bar.DesktopFilename() == "";

    bar.SetProgress(0.5);
    FirstSignalIsReset(host, disk, Attribute(ProgressKey, Double(0.5)));
    assert |bar.signals| == 2 && bar.signals[0].attributes == ResetAttributes();
    assert bar.notifications[|bar.notifications| - 1] == ProgressChanged(0.5);
    SentLeavesDescriptor(host, State(0, disk, []), Attribute(ProgressKey, Double(0.5)));
    assert bar.Exists();

    var first := bar.DesktopFilename();
    bar.Delete();
    assert !bar.Exists();

    var lost := bar.Snapshot();
    bar.SetCounterVisible(true);
    SentWhileMissing(host, lost, Attribute(CountVisibleKey, Bool(true)));
    assert bar.DesktopFilename() != first;
    assert bar.Exists();

    var current := bar.Snapshot();
    bar.Delete();
    bar.Delete();
    assert !bar.Exists() && bar.signals == current.signals;
  }

  /** On an eligible Linux session with a live bus, the constructor as written
      still reports the error and sends nothing, while the corrected bus check
      lets construction create the descriptor and send the reset. */
  method BusCheckScenario(host: Host, probe: Probe, disk: map<string, string>)
    requires EnvironmentEligible(probe)
  {
    var asWritten := new QTaskbarProgress(host, "linux", probe, true, disk);
    assert asWritten.signals == [] && asWritten.DesktopFilename() == "";
    assert asWritten.notifications == [ErrorOccurred(ErrorTxt)];

    var intended := new QTaskbarProgress.WithBusCheck(host, "linux", probe, true, disk);
    assert |intended.signals| == 1 && intended.signals[0].attributes == ResetAttributes();
    assert intended.Exists() && intended.notifications == [];
  }

  /** `setProgress(0.5)` then `setCounter(7)` on a component built as written:
      the first call heals the missing descriptor (reset, then progress), the
      second raises and sends and notifies nothing. */
  method CounterScenario(host: Host, probe: Probe, disk: map<string, string>)
    requires EnvironmentEligible(probe)
  {
    var asWritten := new QTaskbarProgress(host, "linux", probe, true, disk);
    asWritten.SetProgress(0.5);
    var outcome := asWritten.SetCounter(7);
    assert outcome == Raised(TypeError);
    assert |asWritten.signals| == 2 && asWritten.signals[1].attributes == map[ProgressKey := Double(0.5)];
    assert asWritten.notifications == [ErrorOccurred(ErrorTxt), ProgressChanged(0.5)];
  }

  /** The same calls with the corrected setter: `{count: 7}` follows
      `{progress: 0.5}`, each update on the bus before its notification. */
  method CounterIntendedScenario(host: Host, probe: Probe, disk: map<string, string>)
    requires EnvironmentEligible(probe)
  {
    var intended := new QTaskbarProgress.WithBusCheck(host, "linux", probe, true, disk);
    var start, before := intended.trace, intended.Snapshot();
    intended.SetProgress(0.5);
    var sentProgress := Update(CurrentAppId(host, 1), map[ProgressKey := Double(0.5)]);
    assert Emission(host, before, Attribute(ProgressKey, Double(0.5))) == [sentProgress];
    assert Buses([sentProgress]) == [Bus(sentProgress)];
    assert intended.trace == start + [Bus(sentProgress), Local(ProgressChanged(0.5))];
    var middle, between := intended.trace, intended.Snapshot();
    intended.SetCounterIntended(7);
    var sentCounter := Update(CurrentAppId(host, 1), map[CountKey := Int(7)]);
    assert Emission(host, between, Attribute(CountKey, Int(7))) == [sentCounter];
    assert Buses([sentCounter]) == [Bus(sentCounter)];
    assert intended.trace == middle + [Bus(sentCounter), Local(CounterChanged(7))];
    assert |intended.signals| == 3;
    assert intended.signals[1].attributes == map[ProgressKey := Double(0.5)];
    assert intended.signals[2].attributes == map[CountKey := Int(7)];
    assert intended.notifications == [ProgressChanged(0.5), CounterChanged(7)];
  }
}
