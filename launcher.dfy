/**
  The Unity "LauncherEntry" bus convention as QTaskbarProgress uses it: the
  shape of one `Update` signal, the two kinds of attribute map the component
  sends (the four-key reset and a single-key update), and what a listening
  shell makes of a sequence of such maps.
*/
module Launcher {

  /** A variant in the attribute dictionary. The component passes Python
      `bool`, `float` and `int` values through unchanged; a float is never
      computed with, so it is an opaque `real` here. */
  datatype Value = Bool(b: bool) | Double(x: real) | Int(n: int)

  type Attributes = map<string, Value>

  /** One broadcast signal: object path, interface, member, and the two
      positional arguments (application id, attribute dictionary). */
  datatype Signal = Signal(path: string, iface: string, member: string, appId: string, attributes: Attributes)

  const MsgPath: string := "/"
  const MsgInterface: string := "com.canonical.Unity.LauncherEntry"
  const MsgName: string := "Update"

  const ProgressVisibleKey: string := "progress-visible"
  const ProgressKey: string := "progress"
  const CountVisibleKey: string := "count-visible"
  const CountKey: string := "count"

  /** The first argument of every signal: `application://` followed by the
      text the descriptor object formats to. */
  function AppId(fileText: string): string {
    "application://" + fileText
  }

  /** A signal on the fixed path, interface and member of the convention. */
  function Update(appId: string, attributes: Attributes): Signal {
    Signal(MsgPath, MsgInterface, MsgName, appId, attributes)
  }

  /** The map `_sendReset` sends: progress bar shown at 0.0, counter hidden at 0. */
  function ResetAttributes(): Attributes {
    map[ProgressVisibleKey := Bool(true), ProgressKey := Double(0.0),
        CountVisibleKey := Bool(false), CountKey := Int(0)]
  }

  /** The map `_sendMessageAttribute(key, value)` sends. */
  function Attribute(key: string, value: Value): Attributes {
    map[key := value]
  }

  /** What a shell displays for one launcher entry. */
  datatype ProgressState = ProgressState(progressVisible: bool, progress: real, counterVisible: bool, counter: int)

  const Defaults: ProgressState := ProgressState(true, 0.0, false, 0)

  /** How a listening shell folds one attribute map into what it shows: every
      known key that carries a value of its kind replaces that field, the rest
      of the map is ignored. */
  function Apply(st: ProgressState, m: Attributes): ProgressState {
    var pv := if ProgressVisibleKey in m && m[ProgressVisibleKey].Bool? then m[ProgressVisibleKey].b else st.progressVisible;
    var p := if ProgressKey in m && m[ProgressKey].Double? then m[ProgressKey].x else st.progress;
    var cv := if CountVisibleKey in m && m[CountVisibleKey].Bool? then m[CountVisibleKey].b else st.counterVisible;
    var c := if CountKey in m && m[CountKey].Int? then m[CountKey].n else st.counter;
    ProgressState(pv, p, cv, c)
  }

  /** What the shell displays after a whole log of signals, starting from `st`. */
  function Shown(log: seq<Signal>, st: ProgressState): ProgressState
    decreases |log|
  {
    if log == [] then st else Shown(log[1..], Apply(st, log[0].attributes))
  }

  /** A reset puts the display into its defaults, whatever it showed before. */
  lemma ResetShowsDefaults(st: ProgressState)
    ensures Apply(st, ResetAttributes()) == Defaults
  {
  }

  /** Each single-key update changes exactly the one field its key names. */
  lemma AttributeChangesOneField(st: ProgressState, visible: bool, progress: real, counter: int)
    ensures Apply(st, Attribute(ProgressVisibleKey, Bool(visible))) == st.(progressVisible := visible)
    ensures Apply(st, Attribute(ProgressKey, Double(progress))) == st.(progress := progress)
    ensures Apply(st, Attribute(CountVisibleKey, Bool(visible))) == st.(counterVisible := visible)
    ensures Apply(st, Attribute(CountKey, Int(counter))) == st.(counter := counter)
  {
  }

  /** Appending a signal to the log applies its map to what was shown. */
  lemma {:induction false} ShownAppend(log: seq<Signal>, s: Signal, st: ProgressState)
    ensures Shown(log + [s], st) == Apply(Shown(log, st), s.attributes)
    decreases |log|
  {
    if log == [] {
      assert [s][1..] == [];
    } else {
      assert (log + [s])[1..] == log[1..] + [s];
      ShownAppend(log[1..], s, Apply(st, log[0].attributes));
    }
  }
}
