/**
  The descriptor lifecycle and the emission protocol of QTaskbarProgress as
  functions on an abstract state: which descriptor object is current, which
  files exist, and which signals have gone out on the bus. The class in
  taskbar.dfy is proved to follow these functions step by step.
*/
module Emitter {
  import opened Launcher
  import opened Descriptor

  /** What the component takes from its host, indexed by descriptor object
      where the source asks again for each one: the application's name and
      executable path as they are when the g-th descriptor is written
      (`appName(g)`, `appPath(g)`; the host may rename itself in between),
      the applications directory, the supply of UUIDs (the k-th descriptor
      uses `uuid(k)`), and the text each descriptor object formats to (the
      k-th object formats to `objectText(k)`; object 0 is the class-level
      empty `QFile`). */
  datatype Host = Host(appName: nat -> string, appPath: nat -> string, appDir: string,
                       uuid: nat -> string, objectText: nat -> string)

  /** `QUuid.createUuid` never repeats itself. */
  ghost predicate FreshNames(h: Host) {
    forall i, j :: h.uuid(i) == h.uuid(j) ==> i == j
  }

  /** `generation` counts the descriptor objects created so far (0: still the
      class-level empty `QFile`); `files` maps every existing path to its
      content; `signals` is everything sent on the session bus, in order. */
  datatype State = State(generation: nat, files: map<string, string>, signals: seq<Signal>)

  /** `desktopFilename()`: the file name of the current descriptor object. */
  function DesktopFilename(h: Host, generation: nat): (p: string)
    ensures p == "" <==> generation == 0
    ensures generation > 0 ==> InDirectory(p, h.appDir) && EndsWith(p, DesktopSuffix)
  {
    if generation == 0 then "" else DescriptorPath(h.appDir, h.uuid(generation - 1))
  }

  /** `QFile.exists()` on the current descriptor object; a file with an empty name never exists. */
  predicate FileExists(h: Host, st: State) {
    var p := DesktopFilename(h, st.generation);
    p != "" && p in st.files
  }

  /** The first argument of a signal sent while descriptor object `generation` is current. */
  function CurrentAppId(h: Host, generation: nat): string {
    AppId(h.objectText(generation))
  }

  /** `_initDesktopFile`: a new descriptor object on a fresh path, the
      document written if that path does not exist yet, then `_sendReset`
      (which finds the file present and so sends exactly once). */
  function Initialized(h: Host, st: State): State {
    var generation := st.generation + 1;
    var path := DesktopFilename(h, generation);
    var files := if path in st.files then st.files
                 else st.files[path := DescriptorText(h.appName(generation), h.appPath(generation))];
    State(generation, files, st.signals + [Update(CurrentAppId(h, generation), ResetAttributes())])
  }

  /** `_sendMessage(params)`: recreate the descriptor if it is missing, then
      send `params` under the current application id. */
  function Sent(h: Host, st: State, params: Attributes): State {
    var ready := if FileExists(h, st) then st else Initialized(h, st);
    ready.(signals := ready.signals + [Update(CurrentAppId(h, ready.generation), params)])
  }

  /** The signals one `_sendMessage(params)` puts on the bus, in order: when
      the descriptor is missing, the reset under the new descriptor object
      first, then `params` under the descriptor that is then current. */
  function Emission(h: Host, st: State, params: Attributes): (e: seq<Signal>)
    ensures Sent(h, st, params).signals == st.signals + e
    ensures FileExists(h, st) ==> |e| == 1
    ensures !FileExists(h, st) ==> |e| == 2 && e[0].attributes == ResetAttributes()
    ensures e[|e| - 1] == Update(CurrentAppId(h, Sent(h, st, params).generation), params)
  {
    if FileExists(h, st) then [Update(CurrentAppId(h, st.generation), params)]
    else [Update(CurrentAppId(h, st.generation + 1), ResetAttributes()),
          Update(CurrentAppId(h, st.generation + 1), params)]
  }

  /** `__del__`: remove the descriptor file if it exists. */
  function TornDown(h: Host, st: State): State {
    if FileExists(h, st) then st.(files := st.files - {DesktopFilename(h, st.generation)}) else st
  }

  /** `_initDesktopFile` switches to a path that no earlier descriptor used,
      writes the document there only if nothing exists at that path, touches
      no other file, leaves the file present and sends exactly one reset. */
  lemma InitializedFacts(h: Host, st: State)
    requires FreshNames(h)
    ensures var r := Initialized(h, st);
      var path := DesktopFilename(h, r.generation);
      && r.generation == st.generation + 1
      && path == DescriptorPath(h.appDir, h.uuid(st.generation))
      && (forall g :: 0 <= g <= st.generation ==> DesktopFilename(h, g) != path)
      && FileExists(h, r)
      && (path !in st.files ==> r.files[path] == DescriptorText(h.appName(r.generation), h.appPath(r.generation)))
      && (path in st.files ==> r.files == st.files)
      && (forall p :: p != path ==> (p in r.files <==> p in st.files))
      && (forall p :: p != path && p in st.files ==> r.files[p] == st.files[p])
      && r.signals == st.signals + [Update(CurrentAppId(h, r.generation), ResetAttributes())]
  {
    var path := DesktopFilename(h, st.generation + 1);
    forall g | 0 <= g <= st.generation
      ensures DesktopFilename(h, g) != path
    {
      if g > 0 {
        DescriptorPathInjective(h.appDir, h.uuid(g - 1), h.uuid(st.generation));
      }
    }
  }

  /** `_sendMessage` with the descriptor present sends exactly one signal, on
      the fixed path, interface and member, carrying `params` unchanged, and
      keeps the descriptor and every file as they were. */
  lemma SentWhilePresent(h: Host, st: State, params: Attributes)
    requires FileExists(h, st)
    ensures var r := Sent(h, st, params);
      && r.generation == st.generation && r.files == st.files
      && r.signals == st.signals + [Signal(MsgPath, MsgInterface, MsgName, CurrentAppId(h, st.generation), params)]
  {
  }

  /** `_sendMessage` with the descriptor missing sends two signals, the reset
      and then `params`, both under a new descriptor on a path never used
      before, and leaves that file present. */
  lemma SentWhileMissing(h: Host, st: State, params: Attributes)
    requires FreshNames(h)
    requires !FileExists(h, st)
    ensures var r := Sent(h, st, params);
      && r.generation == st.generation + 1
      && FileExists(h, r)
      && DesktopFilename(h, r.generation) != DesktopFilename(h, st.generation)
      && (forall g :: 0 <= g < r.generation ==> DesktopFilename(h, g) != DesktopFilename(h, r.generation))
      && r.signals == st.signals + [Update(CurrentAppId(h, r.generation), ResetAttributes()),
                                    Update(CurrentAppId(h, r.generation), params)]
  {
    InitializedFacts(h, st);
  }

  /** Whatever the state, after `_sendMessage(params)` the descriptor file
      exists and the last signal sent carries `params`. */
  lemma SentLeavesDescriptor(h: Host, st: State, params: Attributes)
    ensures var r := Sent(h, st, params);
      FileExists(h, r) && |r.signals| > 0 && r.signals[|r.signals| - 1] == Update(CurrentAppId(h, r.generation), params)
  {
  }

  /** Ensuring the descriptor is idempotent: a second send with no loss in
      between keeps the same descriptor and files and writes nothing. */
  lemma SentTwiceKeepsDescriptor(h: Host, st: State, p1: Attributes, p2: Attributes)
    ensures var r1 := Sent(h, st, p1);
      var r2 := Sent(h, r1, p2);
      && r2.generation == r1.generation && r2.files == r1.files
      && r2.signals == r1.signals + [Update(CurrentAppId(h, r1.generation), p2)]
  {
  }

  /** Before any descriptor exists (fresh component), the first signal ever
      sent is the reset, whatever is asked for first. */
  lemma FirstSignalIsReset(h: Host, files: map<string, string>, params: Attributes)
    ensures var r := Sent(h, State(0, files, []), params);
      |r.signals| == 2 && r.signals[0].attributes == ResetAttributes() && r.signals[1].attributes == params
  {
  }

  /** After a send that had to recreate the descriptor, a listening shell
      shows the defaults updated by `params`, whatever it showed before. */
  lemma HealedSendShows(h: Host, st: State, params: Attributes, shown: ProgressState)
    requires !FileExists(h, st)
    ensures Shown(Sent(h, st, params).signals, shown) == Apply(Defaults, params)
  {
    var r := Sent(h, st, params);
    var g := r.generation;
    var reset, update := Update(CurrentAppId(h, g), ResetAttributes()), Update(CurrentAppId(h, g), params);
    assert r.signals == st.signals + [reset] + [update];
    ShownAppend(st.signals + [reset], update, shown);
    ShownAppend(st.signals, reset, shown);
    ResetShowsDefaults(Shown(st.signals, shown));
  }

  /** Teardown removes exactly the descriptor file when it exists and
      otherwise changes nothing; afterwards the descriptor is absent, so a
      second teardown changes nothing either. */
  lemma TornDownFacts(h: Host, st: State)
    ensures var r := TornDown(h, st);
      && !FileExists(h, r)
      && r.generation == st.generation && r.signals == st.signals
      && (FileExists(h, st) ==> r.files == st.files - {DesktopFilename(h, st.generation)})
      && (!FileExists(h, st) ==> r == st)
      && TornDown(h, r) == r
  {
  }

  /** One descriptor file per component at any time: no file written for an
      earlier descriptor object is still on disk, so the current one is the
      only descriptor of this component that can exist. */
  predicate OnlyCurrent(h: Host, st: State) {
    forall g :: 1 <= g < st.generation ==> DesktopFilename(h, g) !in st.files
  }

  /** Sending keeps the invariant: a recreated descriptor goes to a path no
      earlier descriptor used, and it is created only once the old one is gone. */
  lemma SentKeepsOnlyCurrent(h: Host, st: State, params: Attributes)
    requires FreshNames(h)
    requires OnlyCurrent(h, st)
    ensures OnlyCurrent(h, Sent(h, st, params))
  {
    if !FileExists(h, st) {
      InitializedFacts(h, st);
    }
  }

  /** Teardown keeps the invariant: it only ever removes a file. */
  lemma TornDownKeepsOnlyCurrent(h: Host, st: State)
    requires OnlyCurrent(h, st)
    ensures OnlyCurrent(h, TornDown(h, st))
  {
  }

  /** Under the invariant, a descriptor path of this component that exists on
      disk is the current one. */
  lemma OnlyCurrentIsCurrent(h: Host, st: State, g: nat)
    requires OnlyCurrent(h, st)
    requires 1 <= g <= st.generation && DesktopFilename(h, g) in st.files
    ensures g == st.generation && FileExists(h, st)
  {
  }
}
