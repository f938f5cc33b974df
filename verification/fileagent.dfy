/** A machine's half of the file relay. */
module FileAgents {
  import opened Paths
  import opened Relay

  datatype AgentState = AgentState(files: map<Path, Bytes>, results: seq<Outcome>, todo: seq<FileAction>)

  const EMPTY := AgentState(map[], [], [])

  /** How far an upload gets: not sent, cut off while it is relayed, relayed but
      with the answer lost, relayed and answered. */
  datatype UploadFate = Unsent | CutOff | AnswerLost | Answered

  /** How far a download and the write after it get. */
  datatype DownloadFate = NoDownload | NoWrite | Written

  function Report(a: AgentState, o: Outcome): AgentState {
    a.(results := a.results + [o])
  }

  function FileOf(a: AgentState, user: string, path: Path): Option<Bytes> {
    var full := Resolve(user, path);
    if full.Some? && full.value in a.files then Some(a.files[full.value]) else None
  }

  function SendFile(a: AgentState, r: State, n: NodeName, id: TransferId, user: string, path: Path, fate: UploadFate, head: int)
    : (AgentState, State)
  {
    var file := FileOf(a, user, path);
    if file.None? || fate.Unsent? then (Report(a, Outcome(id, SendKind, false, 0)), r)
    else
      var (r', staged) := Stage(r, id, n, if fate.CutOff? then None else Some(Relayed(file.value)), head);
      if staged && fate.Answered?
      then (Report(a, Outcome(id, SendKind, true, |file.value|)), r')
      else (Report(a, Outcome(id, SendKind, false, 0)), r')
  }

  function RecvFile(a: AgentState, r: State, n: NodeName, id: TransferId, user: string, path: Path, limit: int, fate: DownloadFate)
    : AgentState
  {
    var blob, full := Open(r, id, n), Resolve(user, path);
    if blob.None? || fate.NoDownload? || full.None? || (0 <= limit < |blob.value|) || fate.NoWrite?
    then Report(a, Outcome(id, RecvKind, false, 0))
    else Report(a.(files := a.files[full.value := blob.value]), Outcome(id, RecvKind, true, |blob.value|))
  }

  function RemoveFile(a: AgentState, id: TransferId, user: string, path: Path, works: bool): AgentState {
    if FileOf(a, user, path).None? || !works then Report(a, Outcome(id, RemoveKind, false, 0))
    else Report(a.(files := a.files - {Resolve(user, path).value}), Outcome(id, RemoveKind, true, 0))
  }

  class FileAgent {
    const node: NodeName
    var files: map<Path, Bytes>
    var results: seq<Outcome>
    var todo: seq<FileAction>

    ghost function Value(): AgentState
      reads this
    {
      AgentState(files, results, todo)
    }

    constructor (n: NodeName)
      ensures node == n && Value() == EMPTY
    {
      node := n;
      files, results, todo := map[], [], [];
    }

    method ReportTransfer(o: Outcome)
      modifies this`results
      ensures Value() == Report(old(Value()), o)
    {
      results := results + [o];
    }

    method Send(c: Controller, id: TransferId, user: string, path: Path, fate: UploadFate, head: int)
      modifies this, c
      ensures (Value(), c.Value()) == SendFile(old(Value()), old(c.Value()), node, id, user, path, fate, head)
    {
      var full := Resolve(user, path);
      if full.None? || full.value !in files || fate.Unsent? {
        ReportTransfer(Outcome(id, SendKind, false, 0));
        return;
      }
      var body := files[full.value];
      var ok := c.StageTransfer(id, node, if fate.CutOff? then None else Some(Relayed(body)), head);
      if !ok || !fate.Answered? {
        ReportTransfer(Outcome(id, SendKind, false, 0));
        return;
      }
      ReportTransfer(Outcome(id, SendKind, true, |body|));
    }

    method Receive(c: Controller, id: TransferId, user: string, path: Path, limit: int, fate: DownloadFate)
      modifies this
      ensures Value() == RecvFile(old(Value()), c.Value(), node, id, user, path, limit, fate)
    {
      var full := Resolve(user, path);
      var found := id in c.transfers && c.transfers[id].state == Staged && c.transfers[id].toNode == node && id in c.blobs;
      if !found || fate.NoDownload? || full.None? || (0 <= limit < |c.blobs[id]|) || fate.NoWrite? {
        ReportTransfer(Outcome(id, RecvKind, false, 0));
        return;
      }
      files := files[full.value := c.blobs[id]];
      ReportTransfer(Outcome(id, RecvKind, true, |c.blobs[id]|));
    }

    method RemoveAt(id: TransferId, user: string, path: Path, works: bool)
      modifies this
      ensures Value() == RemoveFile(old(Value()), id, user, path, works)
    {
      var full := Resolve(user, path);
      if full.None? || full.value !in files || !works {
        ReportTransfer(Outcome(id, RemoveKind, false, 0));
        return;
      }
      files := files - {full.value};
      ReportTransfer(Outcome(id, RemoveKind, true, 0));
    }
  }
}
