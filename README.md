# QTaskbarProgress, modelled in Dafny

QTaskbarProgress is a PyQt5 widget that shows task progress on KDE and Unity taskbars. It does so through the Unity "LauncherEntry" convention. To identify itself to the shell, it writes a throw-away `<uuid>.desktop` descriptor into the user's applications directory. It then broadcasts `Update` signals on the D-Bus session bus. Each signal carries `application://…` and a dictionary of `progress-visible`, `progress`, `count-visible` and `count`.

The model has five modules:

- `Launcher` (launcher.dfy): the signal shape. This is the fixed object path `/`, interface `com.canonical.Unity.LauncherEntry` and member `Update`. It also holds the four-key reset map and the single-key attribute map. For stating properties, it describes how a listening shell folds these maps into what it displays (`ProgressState`, `Apply`, `Shown`).
- `Descriptor` (descriptor.dfy): the descriptor's path and its five-line document. This module also contains a line splitter used to read the document back.
- `Environment` (environment.dfy): the `pidof` test of `checkEnvironment`. `ScanPidofResults` keeps the source's two loops: it fills the results dictionary, then scans it.
- `Emitter` (emitter.dfy): the descriptor lifecycle and message emission as functions on an abstract state. The state is the current descriptor object, the existing files and the signals sent. The lemmas about these functions carry the protocol's properties.
- `Taskbar` (taskbar.dfy): the class `QTaskbarProgress`. Its fields are the current descriptor object (`generation`), the files, the signal log, the notification log and the error stream. A ghost field `trace` records bus signals and notifications interleaved, in the order they happen. Each method that sends or changes files is proved to move the state exactly as the matching `Emitter` function says. `ReportError`, `CheckEnvironment`, `CheckDBus` and `CheckDBusIntended` have no `Emitter` counterpart: their frames leave the descriptor, the files and the signals unchanged. `_initDesktopFile`, `_sendReset` and `_sendMessage` keep the source's mutual recursion. Termination is proved from the fact that the descriptor exists after it has been written.

The model follows the code as written:

- `checkDBus` has no `return`. The constructor's `checkEnvironment() and checkDBus()` is therefore always falsy, and construction always reports the error. The descriptor is first created lazily, when the first setter's `_sendMessage` finds it missing.
- `checkEnvironment` gives up before running `pidof` when the process object has an `errorOccurred` attribute. Qt 5.6 added that signal to `QProcess`, so on any PyQt5 built against Qt 5.6 or later the check answers false at once. The model keeps this as an open flag (`Probe.hasErrorOccurred`).
- `setCounter` calls `_sendMessageAttribute` on the class and raises.
- Until the first descriptor is created, the current descriptor is the class-level empty `QFile`. It never exists, and `desktopFilename()` returns the empty string.
- The application id interpolates the `QFile` object itself, not its file name. The model therefore takes it as `application://` followed by an opaque text of the current descriptor object (`Host.objectText`).

Corrected versions of the bus check and of `setCounter` are modelled beside the as-written ones (see "## Findings").

## Model

| member | source | states |
|---|---|---|
| `Launcher.AppId` | qtaskbarprogress.py:121 | defines the first signal argument: `application://` followed by the text the descriptor object formats to |
| `Launcher.Update` | qtaskbarprogress.py:119-121 | defines one signal: object path `/`, interface `com.canonical.Unity.LauncherEntry`, member `Update`, then the application id and the attribute map as its two arguments, in that order |
| `Launcher.ResetAttributes` | qtaskbarprogress.py:107-114 | defines the reset map: `progress-visible` true, `progress` 0.0, `count-visible` false, `count` 0, and no other key |
| `Launcher.Attribute` | qtaskbarprogress.py:125-126 | defines the map `{key: value}` with exactly one entry |
| `Launcher.ResetShowsDefaults` | qtaskbarprogress.py:107-114 | the reset map sets all four displayed fields to their defaults (progress shown at 0.0, counter hidden at 0), whatever was shown before |
| `Launcher.AttributeChangesOneField` | qtaskbarprogress.py:70-88 | each setter's single-key map changes exactly the one displayed field its key names and no other |
| `Descriptor.FileName` | qtaskbarprogress.py:94 | defines the descriptor's file name: the UUID text followed by `.desktop` |
| `Descriptor.AbsoluteFilePath` | qtaskbarprogress.py:95-96 | defines the path of a relative name in a directory: the directory, a `/`, then the name |
| `Descriptor.DescriptorPath` | qtaskbarprogress.py:94-96 | the descriptor path starts with the applications directory and a `/`, ends in `.desktop`, and has no further `/` after the directory when the UUID text has none, so it lies directly in that directory |
| `Descriptor.DescriptorPathInjective` | qtaskbarprogress.py:94-96 | two UUIDs give the same path in the same directory only if they are equal, so fresh UUIDs give fresh paths |
| `Descriptor.DescriptorText` | qtaskbarprogress.py:99-103 | defines the written document as the concatenation of the five chunks the source writes, in order, with the application's name and executable path inserted |
| `Descriptor.DescriptorTextIsLines` | qtaskbarprogress.py:99-103 | the written document is exactly the five lines `[Desktop Entry]`, `Type=Application`, `Version=1.1`, `Name=<name>`, `Exec=<path>`, each ending in a newline |
| `Descriptor.DescriptorTextSplits` | qtaskbarprogress.py:99-103 | read back line by line, the document gives those five lines in that order, with the application's name and path unchanged (when neither contains a newline) |
| `Environment.StripNewlines` | qtaskbarprogress.py:58 | the result contains no newline and keeps every other character with its multiplicity |
| `Environment.StripNewlinesIdentity` | qtaskbarprogress.py:58 | text without newlines is left unchanged, so stripping is idempotent |
| `Environment.IsDigitString` | qtaskbarprogress.py:60 | defines `str.isdigit` on the ASCII text `pidof` prints: non-empty and made of `0`-`9` only |
| `Environment.PidFound` | qtaskbarprogress.py:58-60 | defines the per-marker test: the `pidof` output with its newlines removed is a non-empty string of digits |
| `Environment.SessionFound` | qtaskbarprogress.py:59-61 | defines the scan's verdict: some marker process (`unity` or `ksmserver`) has an output that passes `PidFound` |
| `Environment.EnvironmentEligible` | qtaskbarprogress.py:44-62 | defines the whole verdict of `checkEnvironment`: the process object has no `errorOccurred`, it is not running, and some marker passes `PidFound` |
| `Environment.SessionFoundIff` | qtaskbarprogress.py:54-61 | the session test holds iff the newline-free `unity` output or the newline-free `ksmserver` output is a non-empty all-digit string |
| `Environment.SinglePidFound` | qtaskbarprogress.py:58-60 | a single PID followed by a newline passes the digit test |
| `Environment.SeveralPidsNotFound` | qtaskbarprogress.py:58-60 | an output with two space-separated PIDs fails the digit test, and so do an empty output and a lone newline |
| `Environment.ScanPidofResults` | qtaskbarprogress.py:54-62 | filling the results dictionary and then scanning it answers true exactly when some marker's output passes the digit test |
| `Emitter.DesktopFilename` | qtaskbarprogress.py:19 | the file name is empty exactly while the class-level empty `QFile` is current; afterwards it is a `.desktop` path in the applications directory |
| `Emitter.FileExists` | qtaskbarprogress.py:117 | defines `exists()` of the current descriptor object: its file name is non-empty and that path is among the existing files |
| `Emitter.CurrentAppId` | qtaskbarprogress.py:121 | defines the application id of signals sent while a given descriptor object is current: `AppId` of that object's text |
| `Emitter.Initialized` | qtaskbarprogress.py:93-105 | defines `_initDesktopFile` on the abstract state: the next descriptor object, the document written at its path only if nothing exists there, then one reset signal under the new application id |
| `Emitter.Sent` | qtaskbarprogress.py:116-123 | defines `_sendMessage` on the abstract state: `Initialized` first when the current descriptor file is missing, then one `Update` signal carrying `params` under the then-current application id |
| `Emitter.Emission` | qtaskbarprogress.py:116-123 | the signals one send appends, in order: one when the descriptor is present; the reset and then `params` when it is missing; the last one always carries `params` |
| `Emitter.TornDown` | qtaskbarprogress.py:40-42 | defines `__del__` on the abstract state: the current descriptor's file is removed if it exists; nothing else changes |
| `Emitter.InitializedFacts` | qtaskbarprogress.py:93-105 | initialisation moves to the next descriptor object, on a path that no earlier descriptor used. It writes the document only if nothing existed at that path, leaves every other file alone, leaves the descriptor present and sends exactly one reset signal |
| `Emitter.SentWhilePresent` | qtaskbarprogress.py:116-123 | with the descriptor present, a send appends exactly one signal (path `/`, the launcher-entry interface, member `Update`, carrying `params` unchanged) and keeps the descriptor and files |
| `Emitter.SentWhileMissing` | qtaskbarprogress.py:116-118 | with the descriptor missing, a send appends the reset and then `params`, both under a new descriptor on a never-used path, and leaves that file present |
| `Emitter.SentLeavesDescriptor` | qtaskbarprogress.py:116-123 | after any send the descriptor exists and the last signal carries `params` |
| `Emitter.SentTwiceKeepsDescriptor` | qtaskbarprogress.py:117-118 | ensuring the descriptor is idempotent: a second send without loss in between keeps the same path and files and appends one signal |
| `Emitter.FirstSignalIsReset` | qtaskbarprogress.py:105-118 | on a fresh component, the first send produces two signals: the reset, then the requested map |
| `Emitter.HealedSendShows` | qtaskbarprogress.py:105-118 | after a send that recreated the descriptor, a listening shell shows the defaults updated by `params`, whatever it showed before |
| `Emitter.TornDownFacts` | qtaskbarprogress.py:40-42 | teardown removes exactly the descriptor file if it exists (every other file keeps its content) and otherwise changes nothing; afterwards the descriptor is absent and a second teardown changes nothing |
| `Emitter.OnlyCurrent` | qtaskbarprogress.py:93-96 | defines the invariant that no file written for an earlier descriptor object still exists, so the current descriptor is the component's only descriptor on disk |
| `Emitter.SentKeepsOnlyCurrent` | qtaskbarprogress.py:116-118 | every send keeps that invariant: a descriptor is recreated only once the old one is gone, and on a path no earlier descriptor used |
| `Emitter.TornDownKeepsOnlyCurrent` | qtaskbarprogress.py:40-42 | teardown keeps that invariant |
| `Emitter.OnlyCurrentIsCurrent` | qtaskbarprogress.py:93-96 | under the invariant, any of the component's descriptor paths that exists is the current one |
| `Taskbar.EnvironmentNotices` | qtaskbarprogress.py:48-49 | defines the notifications `checkEnvironment` emits: one `errorOccurred` with the process error text when the process object has `errorOccurred`, none otherwise |
| `Taskbar.EnvironmentStderr` | qtaskbarprogress.py:48-50 | defines what `checkEnvironment` writes to the error stream: the process error text in that same case, nothing otherwise |
| `Taskbar.BusStderr` | qtaskbarprogress.py:65-68 | defines what `checkDBus` writes: the three-line `dbus-launch` hint exactly when the session bus is not connected, nothing otherwise |
| `Taskbar.IsLinux` | qtaskbarprogress.py:29 | defines the platform gate: the platform name starts with `linux` |
| `Taskbar.QTaskbarProgress.Exists` | qtaskbarprogress.py:41 | defines `self._desktopFile.exists()` on the object's state, as `Emitter.FileExists` of its snapshot |
| `Taskbar.QTaskbarProgress.DesktopFilename` | qtaskbarprogress.py:90-91 | `desktopFilename()` is empty until a descriptor is created, then a `.desktop` path in the applications directory |
| `Taskbar.QTaskbarProgress.constructor` | qtaskbarprogress.py:27-38 | construction as written never creates a descriptor and never sends, so the one-descriptor invariant holds and every event is a local notification. Off Linux it emits `errorOccurred` with the fixed text once and writes it once. On Linux it adds the process error report (if any) and the bus hint (only when the environment passed and the bus is down) |
| `Taskbar.QTaskbarProgress.WithBusCheck` | qtaskbarprogress.py:33-38 | with a bus check that answers, an eligible Linux session with a live bus gets the descriptor and exactly one reset signal and no error; the one-descriptor invariant holds; every other case reports the error and sends nothing |
| `Taskbar.QTaskbarProgress.ReportError` | qtaskbarprogress.py:30-31 | emits `errorOccurred` with the fixed text and writes the same text to the error stream |
| `Taskbar.QTaskbarProgress.CheckEnvironment` | qtaskbarprogress.py:44-62 | answers the environment verdict. When the process object has `errorOccurred`, it returns false after reporting the process error once, without scanning |
| `Taskbar.QTaskbarProgress.CheckDBus` | qtaskbarprogress.py:64-68 | always answers falsy; writes the bus hint exactly when the bus is down |
| `Taskbar.QTaskbarProgress.CheckDBusIntended` | qtaskbarprogress.py:64-68 | answers whether the bus is connected; writes the bus hint exactly when it is not |
| `Taskbar.QTaskbarProgress.InitDesktopFile` | qtaskbarprogress.py:93-105 | moves the state as `Emitter.Initialized` describes |
| `Taskbar.QTaskbarProgress.SendReset` | qtaskbarprogress.py:107-114 | moves the state as a send of the four-key reset map |
| `Taskbar.QTaskbarProgress.SendMessage` | qtaskbarprogress.py:116-123 | moves the state as `Emitter.Sent` describes, recreating a missing descriptor first; the event trace gains exactly the signals of `Emitter.Emission`, in order |
| `Taskbar.QTaskbarProgress.SendMessageAttribute` | qtaskbarprogress.py:125-126 | sends the single-key map `{key: value}`; the event trace gains exactly the signals of that send |
| `Taskbar.QTaskbarProgress.SetProgressVisible` | qtaskbarprogress.py:70-73 | sends `{progress-visible: v}` and then emits `progressVisibleChanged(v)`, unconditionally: the event trace gains the send's bus signals followed by that one notification |
| `Taskbar.QTaskbarProgress.SetProgress` | qtaskbarprogress.py:75-78 | sends `{progress: v}` and then emits `progressChanged(v)`, unconditionally: the event trace gains the send's bus signals followed by that one notification |
| `Taskbar.QTaskbarProgress.SetCounterVisible` | qtaskbarprogress.py:80-83 | sends `{count-visible: v}` and then emits `counterVisibleChanged(v)`, unconditionally: the event trace gains the send's bus signals followed by that one notification |
| `Taskbar.QTaskbarProgress.SetCounter` | qtaskbarprogress.py:85-88 | as written, raises `TypeError` before anything is sent or notified, and changes no state |
| `Taskbar.QTaskbarProgress.SetCounterIntended` | qtaskbarprogress.py:85-88 | sends `{count: v}` and then emits `counterChanged(v)`, unconditionally: the event trace gains the send's bus signals followed by that one notification |
| `Taskbar.QTaskbarProgress.Delete` | qtaskbarprogress.py:40-42 | removes the descriptor file only if it exists, as `Emitter.TornDown` describes |

## Left out

- Spawning `pidof` through `QProcess`, its environment and working directory, and `proc.errorString()`: these are process I/O. The `Probe` carries the flags and the outputs instead.
- Environment.IsDigitString: accepts only the ASCII digits `0`-`9`. Python's `str.isdigit` also accepts other Unicode digit characters, which `pidof` does not print.
- Real file I/O through `QFile` and `QStandardPaths`: the filesystem is a map from path to content, and the applications directory is a given string. Writes are taken to succeed. When creation fails, the source recurses without bound between `_sendMessage`, `_initDesktopFile` and `_sendReset`.
- Descriptor.AbsoluteFilePath: joins with a single `/` and does not clean the path as `QDir` does.
- The UTF-8 encoding of the application's name and path: the document is modelled as text, not bytes.
- `QUuid` generation: the model uses a given supply of UUID texts, assumed never to repeat (`Emitter.FreshNames`). That the texts hold no `/` (true of `QUuid`'s braced hexadecimal form) is not assumed of the supply; `Descriptor.DescriptorPath` states "directly in the directory" under that condition.
- The formatting of a `QFile` object inside the application id: it is an opaque text per descriptor object (`Host.objectText`).
- The D-Bus connection, the `send` call and its delivery, the variant typing of values on the wire, and the `print` of the message: sending is appending to the signal log.
- Qt signal and slot mechanics: notifications are appended to a log. Bus signals and notifications are kept in separate logs, and a ghost event trace (`Taskbar.QTaskbarProgress.trace`) records them interleaved in the order they happen.
- The float `progress` is an opaque `real` and is never computed with.
- Sharing of the class-level empty `QFile` between instances: one instance is modelled.
- When `__del__` runs: garbage collection is not modelled, and teardown is an explicit call (`Delete`).
- What PyQt does with an exception raised inside a slot: `SetCounter` reports the exception to its caller as `Raised`.
- The demo program test.py: it is widget wiring with no behaviour of its own.

## Findings

| source | as written | input that shows it | evidently intended | confidence | as-written member | corrected member |
|---|---|---|---|---|---|---|
| qtaskbarprogress.py:64-68 | `checkDBus` only writes a hint and has no `return`, so `checkEnvironment() and checkDBus()` at line 33 is never truthy | Linux, a running `unity` with one PID, a connected session bus: construction still emits `errorOccurred` and sends no reset (`Taskbar.BusCheckScenario`) | return whether the session bus is connected, so that an eligible host gets its descriptor and reset at construction | high (not executed) | `Taskbar.QTaskbarProgress.CheckDBus` | `Taskbar.QTaskbarProgress.CheckDBusIntended` |
| qtaskbarprogress.py:87 | `QTaskbarProgress._sendMessageAttribute('count', counter)` calls the method on the class, so `'count'` binds to `self` and the value argument is missing | `setCounter(7)` raises `TypeError`; nothing is sent and `counterChanged` is not emitted (`Taskbar.CounterScenario`, `Taskbar.CounterIntendedScenario`) | `self._sendMessageAttribute('count', counter)`, sending `{count: 7}` like the other three setters | high (not executed) | `Taskbar.QTaskbarProgress.SetCounter` | `Taskbar.QTaskbarProgress.SetCounterIntended` |
