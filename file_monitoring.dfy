/**
 * The file-integrity page: a list of monitored paths the user can add to (after
 * trimming the typed path) and remove from, and the recent integrity log lines of
 * the selected agent, shown as alerts when they start with `ALERT`.
 */
module FileMonitoring {
  import opened Common
  import opened Lists

  datatype MonitoredFile = MonitoredFile(id: int, path: string, added: string)

  datatype FileLog = FileLog(id: int, timestamp: string, message: string)

  /** The characters JavaScript's `trim` removes: white space and line terminators. */
  predicate IsSpace(c: char) {
    || ('\t' <= c <= '\r')
    || c == ' ' || c == '\U{00A0}' || c == '\U{1680}'
    || ('\U{2000}' <= c <= '\U{200A}')
    || c == '\U{2028}' || c == '\U{2029}' || c == '\U{202F}' || c == '\U{205F}'
    || c == '\U{3000}' || c == '\U{FEFF}'
  }

  /** `s` with its leading white space removed. */
  function TrimStart(s: string): (r: string)
    ensures |r| <= |s| && r == s[|s| - |r|..]
    ensures forall k :: 0 <= k < |s| - |r| ==> IsSpace(s[k])
    ensures r == [] || !IsSpace(r[0])
  {
    if s != [] && IsSpace(s[0]) then
      var r := TrimStart(s[1..]);
      assert s[1..][|s[1..]| - |r|..] == s[|s| - |r|..];
      r
    else
      s
  }

  /** `s` with its trailing white space removed. */
  function TrimEnd(s: string): (r: string)
    ensures |r| <= |s| && r == s[..|r|]
    ensures forall k :: |r| <= k < |s| ==> IsSpace(s[k])
    ensures r == [] || !IsSpace(r[|r| - 1])
  {
    if s != [] && IsSpace(s[|s| - 1]) then
      var r := TrimEnd(s[..|s| - 1]);
      assert s[..|s| - 1][..|r|] == s[..|r|];
      r
    else
      s
  }

  /** `s` is `r` with `i` white-space characters before it and only white space after it. */
  predicate Surrounds(s: string, r: string, i: int) {
    && 0 <= i && i + |r| <= |s| && r == s[i..i + |r|]
    && (forall k :: 0 <= k < i ==> IsSpace(s[k]))
    && (forall k :: i + |r| <= k < |s| ==> IsSpace(s[k]))
  }

  /** `String.prototype.trim`. */
  function Trim(s: string): (r: string)
    // Empty exactly when the input is all white space ...
    ensures r == [] <==> forall k :: 0 <= k < |s| ==> IsSpace(s[k])
    // ... and otherwise a piece of the input with no white space at either end ...
    ensures r != [] ==> !IsSpace(r[0]) && !IsSpace(r[|r| - 1])
    ensures |r| <= |s|
    // ... namely the piece between the leading and the trailing white space.
    ensures exists i :: Surrounds(s, r, i)
  {
    var t := TrimStart(s);
    var r := TrimEnd(t);
    var i := |s| - |t|;
    TrimPieces(s, t, r);
    if t == [] then
      r
    else
      assert !IsSpace(s[i]) by { assert s[i] == t[0]; }
      assert r != [] && r[0] == t[0];
      r
  }

  /** Trailing white space of a suffix is trailing white space of the whole. */
  lemma TrimPieces(s: string, t: string, r: string)
    requires |t| <= |s| && t == s[|s| - |t|..]
    requires forall k :: 0 <= k < |s| - |t| ==> IsSpace(s[k])
    requires |r| <= |t| && r == t[..|r|]
    requires forall k :: |r| <= k < |t| ==> IsSpace(t[k])
    ensures Surrounds(s, r, |s| - |t|)
  {
    var i := |s| - |t|;
    forall k | i + |r| <= k < |s|
      ensures IsSpace(s[k])
    {
      assert s[k] == t[k - i];
    }
  }

  /** A path already without surrounding white space is stored exactly as typed. */
  lemma {:induction false} TrimKeepsTrimmed(s: string)
    requires s == [] || (!IsSpace(s[0]) && !IsSpace(s[|s| - 1]))
    ensures Trim(s) == s
  {
    assert TrimStart(s) == s;
    assert TrimEnd(s) == s;
  }

  /** Trimming twice is trimming once. */
  lemma TrimIdempotent(s: string)
    ensures Trim(Trim(s)) == Trim(s)
  {
    var t := Trim(s);
    assert t == [] || (!IsSpace(t[0]) && !IsSpace(t[|t| - 1]));
    TrimKeepsTrimmed(t);
  }

  /** The list after `handleRemoveFile(id)`. */
  function WithoutFile(files: seq<MonitoredFile>, id: int): (r: seq<MonitoredFile>)
    ensures forall f :: multiset(r)[f] == if f.id == id then 0 else multiset(files)[f]
    ensures IsSubsequence(r, files)
  {
    Filter((f: MonitoredFile) => f.id != id, files)
  }

  const AlertTag := "ALERT"
  const OkTag := "OK"

  /** `getFileLogs`: the integrity log lines reported for the agent named `agentName`. */
  function AgentFileLogs(agentName: string): (logs: seq<FileLog>)
    ensures |logs| == 3 && logs[0].id == 1 && logs[1].id == 2 && logs[2].id == 3
    // The newest line is the failed check; the two older ones are passed checks.
    ensures AlertTag <= logs[0].message && OkTag <= logs[1].message && OkTag <= logs[2].message
  {
    [ FileLog(1, "2026-02-01T09:55:00Z",
              AlertTag + ": Integrity check failed for '/etc/passwd' on " + agentName + ". Hash mismatch."),
      FileLog(2, "2026-02-01T08:00:00Z",
              OkTag + ": Integrity check passed for '/etc/shadow' on " + agentName + "."),
      FileLog(3, "2026-02-01T07:55:00Z",
              OkTag + ": Integrity check passed for '/etc/passwd' on " + agentName + ".") ]
  }

  /** `t` occurs in `s` starting at position `at`. */
  ghost predicate OccursAt(s: string, t: string, at: int) {
    0 <= at && at + |t| <= |s| && s[at..at + |t|] == t
  }

  /** The lines shown: none without an agent, otherwise three that each name the agent. */
  function FileLogs(selected: Option<Agent>): (logs: seq<FileLog>)
    ensures selected.None? ==> logs == []
    ensures selected.Some? ==> |logs| == 3
    ensures selected.Some? ==> forall i :: 0 <= i < |logs| ==>
      exists at :: OccursAt(logs[i].message, selected.value.name, at)
  {
    match selected
    case None => []
    case Some(agent) =>
      var logs := AgentFileLogs(agent.name);
      var n := agent.name;
      assert OccursAt(logs[0].message, n, 51);
      assert OccursAt(logs[1].message, n, 48);
      assert OccursAt(logs[2].message, n, 48);
      logs
  }

  /** A line is shown as an alert exactly when it starts with `ALERT`. */
  predicate IsAlertLine(message: string): (alert: bool)
    ensures alert <==> |message| >= 5 && message[..5] == "ALERT"
  {
    AlertTag <= message
  }

  /** Of an agent's three lines only the first, the failed check, is shown as an alert. */
  lemma OnlyFailedCheckIsAlert(agent: Agent)
    ensures var logs := FileLogs(Some(agent));
            IsAlertLine(logs[0].message) && !IsAlertLine(logs[1].message) && !IsAlertLine(logs[2].message)
  {
    var logs := FileLogs(Some(agent));
    assert logs == AgentFileLogs(agent.name);
    assert logs[0].message[..5] == AlertTag;
    assert logs[1].message[0] == OkTag[0] == 'O';
    assert logs[2].message[0] == OkTag[0] == 'O';
  }

  class FileMonitoringPage {
    var monitoredFiles: seq<MonitoredFile>
    var newFilePath: string

    constructor (initialFiles: seq<MonitoredFile>)
      ensures monitoredFiles == initialFiles && newFilePath == ""
    {
      monitoredFiles := initialFiles;
      newFilePath := "";
    }

    method SetNewFilePath(path: string)
      modifies this`newFilePath
      ensures newFilePath == path
    {
      newFilePath := path;
    }

    /**
     * Submitting the form with a fresh `id` and the current time as `added`: a path
     * that is only white space changes nothing; any other path is trimmed, put at the
     * front of the list, and the input is cleared.
     */
    method HandleAddFile(id: int, added: string)
      modifies this`monitoredFiles, this`newFilePath
      ensures Trim(old(newFilePath)) == [] ==>
        monitoredFiles == old(monitoredFiles) && newFilePath == old(newFilePath)
      ensures Trim(old(newFilePath)) != [] ==>
        && |monitoredFiles| == |old(monitoredFiles)| + 1
        && monitoredFiles[0] == MonitoredFile(id, Trim(old(newFilePath)), added)
        && monitoredFiles[1..] == old(monitoredFiles)
        && newFilePath == ""
    {
      if Trim(newFilePath) == [] {
        return;
      }
      var newFile := MonitoredFile(id, Trim(newFilePath), added);
      monitoredFiles := [newFile] + monitoredFiles;
      newFilePath := "";
    }

    method HandleRemoveFile(id: int)
      modifies this`monitoredFiles
      ensures monitoredFiles == WithoutFile(old(monitoredFiles), id)
    {
      monitoredFiles := WithoutFile(monitoredFiles, id);
    }
  }
}
