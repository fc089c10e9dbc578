/**
  The desktop-session test of `checkEnvironment`: `pidof` is asked about one
  marker process per supported shell, newlines are removed from what it
  prints, and the session is supported when at least one of those outputs is
  a non-empty run of digits (Python's `str.isdigit`), i.e. exactly one PID.
*/
module Environment {

  /** The marker processes, in the order the results dictionary holds them. */
  const Markers: seq<string> := ["unity", "ksmserver"]

  /** What spawning the helper process gives the check: whether the process
      object exposes `errorOccurred` (the check gives up at once if so), its
      error text, whether it is idle, and what `pidof <name>` prints.
      `hasErrorOccurred` holds on any PyQt5 built against Qt 5.6 or later,
      where `QProcess` has an `errorOccurred` signal. */
  datatype Probe = Probe(hasErrorOccurred: bool, errorString: string, notRunning: bool, pidof: string -> string)

  /** `s.replace('\n', '')`. */
  function StripNewlines(s: string): (r: string)
    ensures '\n' !in r
    ensures forall c :: c != '\n' ==> multiset(r)[c] == multiset(s)[c]
    decreases |s|
  {
    if s == [] then ""
    else
      var rest := StripNewlines(s[1..]);
      assert s == [s[0]] + s[1..];
      if s[0] == '\n' then rest else [s[0]] + rest
  }

  predicate IsDigit(c: char) {
    '0' <= c <= '9'
  }

  /** Python's `str.isdigit` on ASCII text: non-empty and digits only. */
  predicate IsDigitString(s: string) {
    |s| > 0 && forall k :: 0 <= k < |s| ==> IsDigit(s[k])
  }

  /** One `pidof` output names exactly one running process. */
  predicate PidFound(output: string) {
    IsDigitString(StripNewlines(output))
  }

  /** The session test: some marker process has a PID. */
  predicate SessionFound(pidof: string -> string) {
    exists k :: 0 <= k < |Markers| && PidFound(pidof(Markers[k]))
  }

  /** The whole of `checkEnvironment`'s verdict. */
  predicate EnvironmentEligible(probe: Probe) {
    !probe.hasErrorOccurred && probe.notRunning && SessionFound(probe.pidof)
  }

  /** The session test spelled out over the two marker names. */
  lemma SessionFoundIff(pidof: string -> string)
    ensures SessionFound(pidof) <==> PidFound(pidof("unity")) || PidFound(pidof("ksmserver"))
  {
    if PidFound(pidof("unity")) {
      assert PidFound(pidof(Markers[0]));
    }
    if PidFound(pidof("ksmserver")) {
      assert PidFound(pidof(Markers[1]));
    }
  }

  /** Text without newlines passes through unchanged; in particular stripping twice is stripping once. */
  lemma {:induction false} StripNewlinesIdentity(s: string)
    requires '\n' !in s
    ensures StripNewlines(s) == s
    decreases |s|
  {
    if s != [] {
      StripNewlinesIdentity(s[1..]);
    }
  }

  /** Removing newlines distributes over concatenation. */
  lemma {:induction false} StripNewlinesAppend(a: string, b: string)
    ensures StripNewlines(a + b) == StripNewlines(a) + StripNewlines(b)
    decreases |a|
  {
    if a != [] {
      assert (a + b)[0] == a[0] && (a + b)[1..] == a[1..] + b;
      StripNewlinesAppend(a[1..], b);
    } else {
      assert a + b == b;
    }
  }

  /** `pidof` prints one PID and a newline when exactly one process matches:
      that output passes. */
  lemma SinglePidFound(pid: string)
    requires IsDigitString(pid)
    ensures PidFound(pid + "\n")
  {
    StripNewlinesAppend(pid, "\n");
    StripNewlinesIdentity(pid);
  }

  /** Several PIDs are separated by spaces, so such an output fails, as does an empty one. */
  lemma SeveralPidsNotFound(pid1: string, pid2: string)
    ensures !PidFound(pid1 + " " + pid2 + "\n")
    ensures !PidFound("") && !PidFound("\n")
  {
    var out := pid1 + " " + pid2 + "\n";
    StripNewlinesAppend(pid1 + " " + pid2, "\n");
    assert pid1 + " " + pid2 == pid1 + (" " + pid2);
    StripNewlinesAppend(pid1, " " + pid2);
    StripNewlinesAppend(" ", pid2);
    StripNewlinesIdentity(" ");
    assert StripNewlines("\n") == "";
    var r := StripNewlines(out);
    assert r == StripNewlines(pid1) + " " + StripNewlines(pid2);
    assert r[|StripNewlines(pid1)|] == ' ';
  }

  /** The two loops of `checkEnvironment`: fill the results dictionary with
      every marker's newline-free `pidof` output, then scan it and answer
      `true` at the first all-digit entry. */
  method ScanPidofResults(pidof: string -> string) returns (found: bool)
    ensures found <==> SessionFound(pidof)
  {
    var results: seq<(string, string)> := [];
    for i := 0 to |Markers|
      invariant |results| == i
      invariant forall k :: 0 <= k < i ==> results[k] == (Markers[k], StripNewlines(pidof(Markers[k])))
    {
      results := results + [(Markers[i], StripNewlines(pidof(Markers[i])))];
    }
    for i := 0 to |results|
      invariant forall k :: 0 <= k < i ==> !PidFound(pidof(Markers[k]))
    {
      if IsDigitString(results[i].1) {
        return true;
      }
    }
    return false;
  }
}
