/**
  The download supervisor of ytdl-server.ts: the global table of running youtube-dl
  processes, the stdout/stderr/exit handlers that `startDownload` installs, the
  delayed relaunch after a 403 or a "no data blocks" error, `refresh` and the
  status screen. Node runs each callback to completion, so each handler is one
  method; a `setTimeout` relaunch is an entry of `Table.timers` that fires later.
*/
module Downloader {
  import opened Seqs

  const DesiredSimultaneousDownloads: nat := 3

  const Program := "youtube-dl"
  /** The template literal writes `watch\?v\=`; in JavaScript `\?` and `\=` are just `?` and `=`. */
  const WatchUrlPrefix := "https://www.youtube.com/watch?v="
  const SpawnedMessage := "spawned"
  const Http403Text := "HTTP Error 403"
  const NoDataBlocksText := "Did not get any data blocks"
  const BestVideoParams: seq<string> := ["-f", "bestvideo[ext=mp4]"]

  const Banner := "---- ytdl OMEGA ----"
  const IdleLine := "No processes -- currently idle"
  const CountSuffix := " current downloads"
  const Note403 := " (second attempt after 403)"
  const NoteCodeBlocks := " (second attempt after code blocks error)"

  /** The program and arguments a process was spawned with. */
  datatype Command = Command(program: string, args: seq<string>)

  /** `spawn('youtube-dl', [url, ...extraParams])`: the watch URL of the code, then the extra arguments. */
  function SpawnCommand(code: string, extraParams: seq<string>): (c: Command)
    ensures c.program == Program
    ensures |c.args| == 1 + |extraParams| && c.args[1..] == extraParams
    ensures |c.args[0]| == |WatchUrlPrefix| + |code|
    ensures c.args[0][..|WatchUrlPrefix|] == WatchUrlPrefix && c.args[0][|WatchUrlPrefix|..] == code
  {
    Command(Program, [WatchUrlPrefix + code] + extraParams)
  }

  // ---------------------------------------------------------------------------
  // Classifying stderr and deciding on a relaunch

  /** `s.includes(sub)`, stated independently of how `Includes` searches. */
  ghost predicate Contains(s: string, sub: string)
  {
    exists i :: OccursAt(s, sub, i)
  }

  /** The branch the stderr handler takes for a chunk. */
  datatype Classification = Forbidden403 | NoDataBlocks | Unrecognised

  /** The 403 test comes first, so a chunk with both texts takes the 403 branch. */
  function Classify(chunk: string): (c: Classification)
    ensures c == Forbidden403 <==> Contains(chunk, Http403Text)
    ensures c == NoDataBlocks <==> !Contains(chunk, Http403Text) && Contains(chunk, NoDataBlocksText)
  {
    if Includes(chunk, Http403Text) then Forbidden403
    else if Includes(chunk, NoDataBlocksText) then NoDataBlocks
    else Unrecognised
  }

  /**
    What the stderr handler schedules for a record with these flags: the extra
    arguments of the relaunch, or nothing. The "already retried" branches only
    hold a TODO, so they schedule nothing.
  */
  function RetryPlan(c: Classification, hasRetriedAfterA403: bool, hasRetriedAfterACodeBlocksError: bool)
    : (plan: Option<seq<string>>)
    ensures plan.Some? <==>
      (c == Forbidden403 && !hasRetriedAfterA403) || (c == NoDataBlocks && !hasRetriedAfterACodeBlocksError)
    ensures plan.Some? && c == Forbidden403 ==> plan.value == []
    ensures plan.Some? && c == NoDataBlocks ==> plan.value == BestVideoParams
  {
    match c
    case Forbidden403 => if !hasRetriedAfterA403 then Some([]) else None
    case NoDataBlocks => if !hasRetriedAfterACodeBlocksError then Some(BestVideoParams) else None
    case Unrecognised => None
  }

  /** The two retry flags of a record. */
  datatype Flags = Flags(after403: bool, afterCodeBlocks: bool)

  /**
    The flags a relaunched record gets, as written: the relaunch passes
    `!hasRetried...` as `shouldRetry...`, and `startDownload` stores `!shouldRetry...`.
  */
  function RelaunchedFlags(f: Flags): (g: Flags)
    ensures g == f
  {
    var shouldRetryAfterA403 := !f.after403;
    var shouldRetryAfterACodeBlocksError := !f.afterCodeBlocks;
    Flags(!shouldRetryAfterA403, !shouldRetryAfterACodeBlocksError)
  }

  /** The flags the comments in the handler describe: the reason just retried is marked as retried. */
  function CorrectedRelaunchedFlags(f: Flags, c: Classification): (g: Flags)
    ensures g.after403 <==> f.after403 || c == Forbidden403
    ensures g.afterCodeBlocks <==> f.afterCodeBlocks || c == NoDataBlocks
  {
    Flags(f.after403 || c == Forbidden403, f.afterCodeBlocks || c == NoDataBlocks)
  }

  /**
    The relaunches one download goes through when its stderr chunks classify as
    `cs`, in order, each relaunch taking over from the attempt before it: the
    reasons of the relaunches, with the flag update as written or as corrected.
  */
  function RelaunchReasons(f: Flags, cs: seq<Classification>, corrected: bool): seq<Classification>
    decreases |cs|
  {
    if cs == [] then []
    else
      match RetryPlan(cs[0], f.after403, f.afterCodeBlocks)
      case None => RelaunchReasons(f, cs[1..], corrected)
      case Some(_) =>
        var next := if corrected then CorrectedRelaunchedFlags(f, cs[0]) else RelaunchedFlags(f);
        [cs[0]] + RelaunchReasons(next, cs[1..], corrected)
  }

  function Count(cs: seq<Classification>, c: Classification): nat
  {
    if cs == [] then 0 else (if cs[0] == c then 1 else 0) + Count(cs[1..], c)
  }

  /** As written, a fresh download relaunches once for every 403 chunk it ever receives. */
  lemma {:induction false} AsWrittenRetriesNeverStop(cs: seq<Classification>)
    requires forall k :: 0 <= k < |cs| ==> cs[k] == Forbidden403
    ensures |RelaunchReasons(Flags(false, false), cs, false)| == |cs|
  {
    if cs != [] {
      AsWrittenRetriesNeverStop(cs[1..]);
    }
  }

  /**
    With the corrected flags, a linear chain of attempts (each relaunch taking over
    from the attempt before it) relaunches at most once per reason.
  */
  lemma {:induction false} CorrectedRetriesAtMostOncePerReason(f: Flags, cs: seq<Classification>)
    decreases |cs|
    ensures Count(RelaunchReasons(f, cs, true), Forbidden403) <= (if f.after403 then 0 else 1)
    ensures Count(RelaunchReasons(f, cs, true), NoDataBlocks) <= (if f.afterCodeBlocks then 0 else 1)
    ensures Count(RelaunchReasons(f, cs, true), Unrecognised) == 0
  {
    if cs != [] {
      match RetryPlan(cs[0], f.after403, f.afterCodeBlocks)
      case None =>
        CorrectedRetriesAtMostOncePerReason(f, cs[1..]);
      case Some(_) =>
        var next := CorrectedRelaunchedFlags(f, cs[0]);
        CorrectedRetriesAtMostOncePerReason(next, cs[1..]);
        assert RelaunchReasons(f, cs, true) == [cs[0]] + RelaunchReasons(next, cs[1..], true);
    }
  }

  // ---------------------------------------------------------------------------
  // Log file names and the status screen

  /** `saveLogs` writes to `logs-<videoCode>-<id>.txt`. */
  function LogFileName(videoCode: string, id: string): (name: string)
    ensures |name| == |videoCode| + |id| + 10
    ensures name[..5] == "logs-" && name[|name| - 4..] == ".txt"
    ensures name[5..5 + |videoCode|] == videoCode && name[5 + |videoCode|] == '-'
    ensures name[6 + |videoCode|..|name| - 4] == id
  {
    "logs-" + videoCode + "-" + id + ".txt"
  }

  /**
    Video codes may contain `-`, but ids have a fixed length (`ShortUniqueId` is
    configured with length 12), so a log file name still tells which record it
    belongs to.
  */
  lemma LogFileNameIsInjective(code1: string, id1: string, code2: string, id2: string)
    requires |id1| == |id2|
    requires LogFileName(code1, id1) == LogFileName(code2, id2)
    ensures code1 == code2 && id1 == id2
  {
    var n := LogFileName(code1, id1);
    assert |code1| == |code2|;
    assert code1 == n[5..5 + |code1|] == code2;
    assert id1 == n[6 + |code1|..6 + |code1| + |id1|] == id2;
  }

  /** The annotations after a record's most recent message. */
  function Annotations(hasRetriedAfterA403: bool, hasRetriedAfterACodeBlocksError: bool): string
  {
    (if hasRetriedAfterA403 then Note403 else "") + (if hasRetriedAfterACodeBlocksError then NoteCodeBlocks else "")
  }

  /** One record's line on the status screen. */
  function StatusLine(recentMessage: string, hasRetriedAfterA403: bool, hasRetriedAfterACodeBlocksError: bool)
    : (line: string)
    ensures |line| == |recentMessage| + |Annotations(hasRetriedAfterA403, hasRetriedAfterACodeBlocksError)|
    ensures line[..|recentMessage|] == recentMessage
    ensures line[|recentMessage|..] == Annotations(hasRetriedAfterA403, hasRetriedAfterACodeBlocksError)
  {
    recentMessage + Annotations(hasRetriedAfterA403, hasRetriedAfterACodeBlocksError)
  }

  /** The annotations can be read back: each flag shows iff it is set. */
  lemma AnnotationsShowFlags(a: bool, b: bool, c: bool, d: bool)
    requires Annotations(a, b) == Annotations(c, d)
    ensures a == c && b == d
  {
    assert |Annotations(a, b)| == (if a then 27 else 0) + (if b then 41 else 0);
    assert |Annotations(c, d)| == (if c then 27 else 0) + (if d then 41 else 0);
  }

  /** The second line of the screen. */
  function Headline(count: nat): string
  {
    if count == 0 then IdleLine else DecimalString(count) + CountSuffix
  }

  /** The idle line shows iff the table is empty; otherwise the line starts with the count. */
  lemma HeadlineShowsCount(count: nat)
    ensures Headline(count) == IdleLine <==> count == 0
    ensures count > 0 ==> var h := Headline(count);
      |h| > |CountSuffix| && DecimalValue(h[..|h| - |CountSuffix|]) == count
  {
    if count > 0 {
      var h := Headline(count);
      assert h[0] == DecimalString(count)[0];
      assert IdleLine[0] == 'N';
      assert h[..|h| - |CountSuffix|] == DecimalString(count);
      DecimalRoundTrip(count);
    }
  }

  // ---------------------------------------------------------------------------
  // The records and the table

  /** A `string[]` that records share: pushing to it is seen through every record holding it. */
  class Transcript {
    var lines: seq<string>

    constructor ()
      ensures lines == []
    {
      lines := [];
    }

    method Push(line: string)
      modifies this
      ensures lines == old(lines) + [line]
    {
      lines := lines + [line];
    }
  }

  /** `Process`: one spawned attempt. Only `recentMessage` (and the shared transcripts) ever change. */
  class Process {
    const id: string
    const proc: Command
    const hasRetriedAfterA403: bool
    const hasRetriedAfterACodeBlocksError: bool
    const messages: Transcript
    const errorMessages: Transcript
    var recentMessage: string
    const videoCode: string

    constructor (id: string, proc: Command, hasRetriedAfterA403: bool, hasRetriedAfterACodeBlocksError: bool,
                 messages: Transcript, errorMessages: Transcript, recentMessage: string, videoCode: string)
      ensures this.id == id && this.proc == proc
      ensures this.hasRetriedAfterA403 == hasRetriedAfterA403
      ensures this.hasRetriedAfterACodeBlocksError == hasRetriedAfterACodeBlocksError
      ensures this.messages == messages && this.errorMessages == errorMessages
      ensures this.recentMessage == recentMessage && this.videoCode == videoCode
    {
      this.id := id;
      this.proc := proc;
      this.hasRetriedAfterA403 := hasRetriedAfterA403;
      this.hasRetriedAfterACodeBlocksError := hasRetriedAfterACodeBlocksError;
      this.messages := messages;
      this.errorMessages := errorMessages;
      this.recentMessage := recentMessage;
      this.videoCode := videoCode;
    }
  }

  /** A `setTimeout` relaunch: the closure holds the record it read and the extra arguments. */
  datatype Relaunch = Relaunch(record: Process, extraParams: seq<string>)

  /**
    The branches of the stderr handler after the chunk is recorded: the relaunch
    it schedules from record `p`, if any.
  */
  method ScheduleRelaunch(p: Process, data: string) returns (scheduled: Option<Relaunch>)
    ensures scheduled ==
      match RetryPlan(Classify(data), p.hasRetriedAfterA403, p.hasRetriedAfterACodeBlocksError)
      case None => None
      case Some(extra) => Some(Relaunch(p, extra))
  {
    scheduled := None;
    if Includes(data, Http403Text) {
      if !p.hasRetriedAfterA403 {
        scheduled := Some(Relaunch(p, []));
      }
    } else if Includes(data, NoDataBlocksText) {
      if !p.hasRetriedAfterACodeBlocksError {
        scheduled := Some(Relaunch(p, BestVideoParams));
      }
    }
  }

  /** `processes.filter((process) => process.id === processUID)` */
  function WithId(ps: seq<Process>, id: string): seq<Process>
  {
    Filter(ps, (p: Process) => p.id == id)
  }

  /** `processes.filter((process) => process.id !== processUID)` */
  function WithoutId(ps: seq<Process>, id: string): seq<Process>
  {
    Filter(ps, (p: Process) => p.id != id)
  }

  function Ids(ps: seq<Process>): set<string>
  {
    set i | 0 <= i < |ps| :: ps[i].id
  }

  ghost predicate IdsDistinct(ps: seq<Process>)
  {
    forall i, j :: 0 <= i < j < |ps| ==> ps[i].id != ps[j].id
  }

  /** With pairwise distinct ids, an id in the table picks out exactly one record. */
  lemma {:induction false} DistinctIdsMatchOnce(ps: seq<Process>, id: string)
    requires IdsDistinct(ps) && id in Ids(ps)
    ensures |WithId(ps, id)| == 1
  {
    var rest := ps[1..];
    if ps[0].id == id {
      assert forall j :: 0 <= j < |rest| ==> rest[j].id != id by {
        forall j | 0 <= j < |rest| ensures rest[j].id != id {
          assert rest[j] == ps[1 + j];
        }
      }
      FilterKeepsNone(rest, (p: Process) => p.id == id);
    } else {
      assert id in Ids(rest);
      DistinctIdsMatchOnce(rest, id);
    }
  }

  /** Removing the records with one id keeps the others' ids distinct. */
  lemma {:induction false} WithoutIdKeepsIdsDistinct(ps: seq<Process>, id: string)
    requires IdsDistinct(ps)
    ensures IdsDistinct(WithoutId(ps, id))
  {
    if ps != [] {
      WithoutIdKeepsIdsDistinct(ps[1..], id);
      var tail := WithoutId(ps[1..], id);
      forall k | 0 <= k < |tail|
        ensures tail[k].id != ps[0].id
      {
        var j :| 0 <= j < |ps[1..]| && ps[1..][j] == tail[k];
        assert ps[1 + j] == tail[k];
      }
      if ps[0].id != id {
        ConsIdsDistinct(ps[0], tail);
      }
    }
  }

  lemma ConsIdsDistinct(p: Process, ps: seq<Process>)
    requires IdsDistinct(ps)
    requires forall k :: 0 <= k < |ps| ==> ps[k].id != p.id
    ensures IdsDistinct([p] + ps)
  {
    var s := [p] + ps;
    forall i, j | 0 <= i < j < |s|
      ensures s[i].id != s[j].id
    {
      assert s[j] == ps[j - 1];
      if i > 0 {
        assert s[i] == ps[i - 1];
      }
    }
  }

  /** The exit handler's removal: with distinct ids and the id present, exactly one record goes. */
  lemma ExitRemovesOne(ps: seq<Process>, id: string)
    requires IdsDistinct(ps) && id in Ids(ps)
    ensures |WithoutId(ps, id)| == |ps| - 1
  {
    DistinctIdsMatchOnce(ps, id);
    FilterPartition(ps, (p: Process) => p.id == id, (p: Process) => p.id != id);
  }

  /** The table of running processes, and the relaunches waiting on their timer. */
  class Table {
    var processes: seq<Process>
    var timers: seq<Relaunch>

    /** The transcripts the table's records write to. */
    ghost function MessageBuffers(): set<Transcript>
      reads this
    {
      set i | 0 <= i < |processes| :: processes[i].messages
    }

    ghost function ErrorBuffers(): set<Transcript>
      reads this
    {
      set i | 0 <= i < |processes| :: processes[i].errorMessages
    }

    /** No record, running or captured by a pending relaunch, has either retry flag set. */
    ghost predicate NeverRetried()
      reads this
    {
      (forall i :: 0 <= i < |processes| ==>
        !processes[i].hasRetriedAfterA403 && !processes[i].hasRetriedAfterACodeBlocksError) &&
      (forall i :: 0 <= i < |timers| ==>
        !timers[i].record.hasRetriedAfterA403 && !timers[i].record.hasRetriedAfterACodeBlocksError)
    }

    /**
      Loading the module: the table starts empty and the three hard-coded codes
      are started with the default arguments.
    */
    constructor (uid1: string, uid2: string, uid3: string)
      ensures |processes| == 3 && timers == []
      ensures processes[0].videoCode == "QpQY8uXW3JY"
      ensures processes[1].videoCode == "3O1oEFziRmo"
      ensures processes[2].videoCode == "O-MViv-D0ow"
      ensures processes[0].id == uid1 && processes[1].id == uid2 && processes[2].id == uid3
      ensures forall k :: 0 <= k < 3 ==>
        processes[k].recentMessage == SpawnedMessage &&
        processes[k].proc == SpawnCommand(processes[k].videoCode, []) &&
        fresh(processes[k]) && fresh(processes[k].messages) && fresh(processes[k].errorMessages) &&
        processes[k].messages != processes[k].errorMessages &&
        processes[k].messages.lines == [] && processes[k].errorMessages.lines == []
      ensures forall j, k :: 0 <= j < k < 3 ==>
        {processes[j].messages, processes[j].errorMessages} !! {processes[k].messages, processes[k].errorMessages}
      ensures NeverRetried()
      ensures uid1 != uid2 && uid1 != uid3 && uid2 != uid3 ==> IdsDistinct(processes)
    {
      processes := [];
      timers := [];
      new;
      var p1 := StartDownloadWithDefaults("QpQY8uXW3JY", uid1);
      var p2 := StartDownloadWithDefaults("3O1oEFziRmo", uid2);
      var p3 := StartDownloadWithDefaults("O-MViv-D0ow", uid3);
    }

    /**
      `startDownload`: spawn the downloader and append one record. `processUid`
      stands for the fresh id `uid()` returns.
    */
    method StartDownload(code: string, shouldRetryAfterA403: bool, shouldRetryAfterACodeBlocksError: bool,
                         extraParams: seq<string>, currentMessages: Transcript,
                         currentErrorMessages: Transcript, processUid: string)
      returns (p: Process)
      modifies this`processes
      ensures fresh(p)
      ensures processes == old(processes) + [p]
      ensures p.id == processUid && p.videoCode == code && p.recentMessage == SpawnedMessage
      ensures p.proc == SpawnCommand(code, extraParams)
      ensures p.hasRetriedAfterA403 == !shouldRetryAfterA403
      ensures p.hasRetriedAfterACodeBlocksError == !shouldRetryAfterACodeBlocksError
      ensures p.messages == currentMessages && p.errorMessages == currentErrorMessages
      ensures old(IdsDistinct(processes)) && processUid !in old(Ids(processes)) ==> IdsDistinct(processes)
      ensures old(NeverRetried()) && shouldRetryAfterA403 && shouldRetryAfterACodeBlocksError ==> NeverRetried()
    {
      var command := SpawnCommand(code, extraParams);
      p := new Process(processUid, command, !shouldRetryAfterA403, !shouldRetryAfterACodeBlocksError,
                       currentMessages, currentErrorMessages, SpawnedMessage, code);
      processes := processes + [p];
    }

    /** `startDownload(code)`: both retries allowed, no extra arguments, new empty transcripts. */
    method StartDownloadWithDefaults(code: string, processUid: string) returns (p: Process)
      modifies this`processes
      ensures fresh(p) && fresh(p.messages) && fresh(p.errorMessages) && p.messages != p.errorMessages
      ensures processes == old(processes) + [p]
      ensures p.id == processUid && p.videoCode == code && p.recentMessage == SpawnedMessage
      ensures p.proc == SpawnCommand(code, [])
      ensures !p.hasRetriedAfterA403 && !p.hasRetriedAfterACodeBlocksError
      ensures p.messages.lines == [] && p.errorMessages.lines == []
      ensures old(IdsDistinct(processes)) && processUid !in old(Ids(processes)) ==> IdsDistinct(processes)
      ensures old(NeverRetried()) ==> NeverRetried()
    {
      var messages := new Transcript();
      var errorMessages := new Transcript();
      p := StartDownload(code, true, true, [], messages, errorMessages, processUid);
    }

    /**
      The stdout handler of the process with id `processUid`: when exactly one
      record has that id, append the chunk to its messages and show it.
    */
    method OnStdout(processUid: string, data: string)
      modifies processes, MessageBuffers()
      ensures processes == old(processes) && timers == old(timers)
      ensures |WithId(processes, processUid)| != 1 ==>
        forall i :: 0 <= i < |processes| ==>
          unchanged(processes[i]) && unchanged(processes[i].messages) && unchanged(processes[i].errorMessages)
      ensures |WithId(processes, processUid)| == 1 ==>
        var p := WithId(processes, processUid)[0];
        p.recentMessage == data && p.messages.lines == old(p.messages.lines) + [data] &&
        forall i :: 0 <= i < |processes| ==>
          (processes[i] != p ==> processes[i].recentMessage == old(processes[i].recentMessage)) &&
          (processes[i].messages != p.messages ==> processes[i].messages.lines == old(processes[i].messages.lines)) &&
          (processes[i].errorMessages != p.messages ==>
            processes[i].errorMessages.lines == old(processes[i].errorMessages.lines))
    {
      var mine := WithId(processes, processUid);
      if |mine| == 1 {
        var p := mine[0];
        ghost var at :| 0 <= at < |processes| && processes[at] == p;
        assert p.messages in MessageBuffers();
        Show(p, p.messages, data);
      }
    }

    /** The step both stream handlers share: push the chunk to one transcript of `p` and show it. */
    method Show(p: Process, t: Transcript, data: string)
      modifies p, t
      ensures p.recentMessage == data && t.lines == old(t.lines) + [data]
      ensures forall i :: 0 <= i < |processes| ==>
        (processes[i] != p ==> processes[i].recentMessage == old(processes[i].recentMessage)) &&
        (processes[i].messages != t ==> processes[i].messages.lines == old(processes[i].messages.lines)) &&
        (processes[i].errorMessages != t ==> processes[i].errorMessages.lines == old(processes[i].errorMessages.lines))
    {
      t.Push(data);
      p.recentMessage := data;
    }

    /**
      The stderr handler: when exactly one record has the id, append the chunk to
      its error messages, show it, and on a 403 or a "no data blocks" chunk set a
      timer that relaunches from that record.
    */
    method OnStderr(processUid: string, data: string) returns (scheduled: Option<Relaunch>)
      modifies this`timers, processes, ErrorBuffers()
      ensures processes == old(processes)
      ensures timers == old(timers) + (if scheduled.Some? then [scheduled.value] else [])
      ensures |WithId(processes, processUid)| != 1 ==>
        scheduled == None &&
        forall i :: 0 <= i < |processes| ==>
          unchanged(processes[i]) && unchanged(processes[i].messages) && unchanged(processes[i].errorMessages)
      ensures |WithId(processes, processUid)| == 1 ==>
        var p := WithId(processes, processUid)[0];
        scheduled == (match RetryPlan(Classify(data), p.hasRetriedAfterA403, p.hasRetriedAfterACodeBlocksError)
                      case None => None
                      case Some(extra) => Some(Relaunch(p, extra)))
      ensures |WithId(processes, processUid)| == 1 ==>
        var p := WithId(processes, processUid)[0];
        p.recentMessage == data && p.errorMessages.lines == old(p.errorMessages.lines) + [data] &&
        forall i :: 0 <= i < |processes| ==>
          (processes[i] != p ==> processes[i].recentMessage == old(processes[i].recentMessage)) &&
          (processes[i].messages != p.errorMessages ==> processes[i].messages.lines == old(processes[i].messages.lines)) &&
          (processes[i].errorMessages != p.errorMessages ==>
            processes[i].errorMessages.lines == old(processes[i].errorMessages.lines))
      ensures old(NeverRetried()) ==> NeverRetried()
      ensures old(NeverRetried()) && |WithId(processes, processUid)| == 1 && Classify(data) != Unrecognised
        ==> scheduled.Some?
    {
      scheduled := None;
      var mine := WithId(processes, processUid);
      if |mine| == 1 {
        var p := mine[0];
        ghost var at :| 0 <= at < |processes| && processes[at] == p;
        assert p.errorMessages in ErrorBuffers();
        Show(p, p.errorMessages, data);
        scheduled := ScheduleRelaunch(p, data);
        SetTimer(scheduled);
      }
    }

    /** `setTimeout` of a scheduled relaunch: it joins the pending timers. */
    method SetTimer(scheduled: Option<Relaunch>)
      modifies this`timers
      ensures timers == old(timers) + (if scheduled.Some? then [scheduled.value] else [])
      ensures old(NeverRetried()) &&
        (scheduled.Some? ==> !scheduled.value.record.hasRetriedAfterA403 &&
                             !scheduled.value.record.hasRetriedAfterACodeBlocksError)
        ==> NeverRetried()
    {
      if scheduled.Some? {
        timers := timers + [scheduled.value];
      }
    }

    /**
      The timer of the pending relaunch `k` fires: `startDownload` runs again with
      the captured record's code, `!` of its flags, the extra arguments and its
      very transcripts. The captured record need not be in the table any more.
    */
    method FireRelaunch(k: nat, processUid: string) returns (p: Process)
      requires k < |timers|
      modifies this
      ensures fresh(p)
      ensures timers == old(timers[..k] + timers[k + 1..])
      ensures processes == old(processes) + [p]
      ensures var r := old(timers[k]);
        p.id == processUid && p.videoCode == r.record.videoCode && p.recentMessage == SpawnedMessage &&
        p.proc == SpawnCommand(r.record.videoCode, r.extraParams) &&
        Flags(p.hasRetriedAfterA403, p.hasRetriedAfterACodeBlocksError) ==
          RelaunchedFlags(Flags(r.record.hasRetriedAfterA403, r.record.hasRetriedAfterACodeBlocksError)) &&
        p.messages == r.record.messages && p.errorMessages == r.record.errorMessages
      ensures var r := old(timers[k]);
        p.messages.lines == old(r.record.messages.lines) && p.errorMessages.lines == old(r.record.errorMessages.lines)
      ensures old(IdsDistinct(processes)) && processUid !in old(Ids(processes)) ==> IdsDistinct(processes)
      ensures old(NeverRetried()) ==> NeverRetried()
    {
      var r := timers[k];
      timers := timers[..k] + timers[k + 1..];
      var before := r.record;
      p := StartDownload(before.videoCode, !before.hasRetriedAfterA403, !before.hasRetriedAfterACodeBlocksError,
                         r.extraParams, before.messages, before.errorMessages, processUid);
    }

    /**
      The exit handler: save the logs when exactly one record has the id, then
      drop every record with that id, keeping the others in order.
    */
    method OnExit(processUid: string) returns (logFile: Option<string>)
      modifies this`processes
      ensures processes == WithoutId(old(processes), processUid)
      ensures var mine := WithId(old(processes), processUid);
        logFile == if |mine| == 1 then Some(LogFileName(mine[0].videoCode, processUid)) else None
      ensures forall i :: 0 <= i < |processes| ==> processes[i] in old(processes) && processes[i].id != processUid
      ensures processUid !in Ids(processes)
      ensures old(IdsDistinct(processes)) ==> IdsDistinct(processes)
      ensures old(IdsDistinct(processes)) && processUid in old(Ids(processes)) ==>
        |processes| == |old(processes)| - 1 && logFile.Some?
      ensures old(NeverRetried()) ==> NeverRetried()
    {
      var mine := WithId(processes, processUid);
      if |mine| == 1 {
        logFile := Some(LogFileName(mine[0].videoCode, mine[0].id));
      } else {
        logFile := None;
      }
      if IdsDistinct(processes) {
        WithoutIdKeepsIdsDistinct(processes, processUid);
        if processUid in Ids(processes) {
          ExitRemovesOne(processes, processUid);
          DistinctIdsMatchOnce(processes, processUid);
        }
      }
      processes := WithoutId(processes, processUid);
    }

    /**
      `refresh`: when fewer than three downloads run, ask `getCodes` for the
      difference; the codes it returns are discarded, so the table stays as it is.
    */
    method Refresh() returns (requested: Option<nat>)
      ensures requested.Some? <==> |processes| < DesiredSimultaneousDownloads
      ensures requested.Some? ==>
        requested.value == DesiredSimultaneousDownloads - |processes| && 1 <= requested.value <= 3
    {
      if |processes| < DesiredSimultaneousDownloads {
        var desiredCount := DesiredSimultaneousDownloads - |processes|;
        var codes := GetCodes(desiredCount);
        requested := Some(desiredCount);
      } else {
        requested := None;
      }
    }

    /** `printStatus`: the banner, the idle line or the count, then one line per record in table order. */
    method PrintStatus() returns (screen: seq<string>)
      ensures |screen| == 2 + |processes|
      ensures screen[0] == Banner
      ensures screen[1] == Headline(|processes|)
      ensures forall i :: 0 <= i < |processes| ==>
        screen[2 + i] == StatusLine(processes[i].recentMessage, processes[i].hasRetriedAfterA403,
                                    processes[i].hasRetriedAfterACodeBlocksError)
    {
      screen := [Banner];
      if |processes| == 0 {
        screen := screen + [IdleLine];
      } else {
        screen := screen + [DecimalString(|processes|) + CountSuffix];
      }
      var i := 0;
      while i < |processes|
        invariant 0 <= i <= |processes|
        invariant |screen| == 2 + i
        invariant screen[0] == Banner && screen[1] == Headline(|processes|)
        invariant forall j :: 0 <= j < i ==>
          screen[2 + j] == StatusLine(processes[j].recentMessage, processes[j].hasRetriedAfterA403,
                                      processes[j].hasRetriedAfterACodeBlocksError)
      {
        var proc := processes[i];
        var info403 := if proc.hasRetriedAfterA403 then Note403 else "";
        var infoCodeBlocks := if proc.hasRetriedAfterACodeBlocksError then NoteCodeBlocks else "";
        screen := screen + [proc.recentMessage + info403 + infoCodeBlocks];
        i := i + 1;
      }
    }
  }

  /**
    Right after the module loads, a 403 on the stderr of the first hard-coded
    download schedules a relaunch of it that adds no arguments.
  */
  method FirstForbiddenChunkRelaunches(data: string) returns (scheduled: Option<Relaunch>)
    requires Contains(data, Http403Text)
    ensures scheduled.Some? && scheduled.value.extraParams == []
    ensures scheduled.value.record.videoCode == "QpQY8uXW3JY" && scheduled.value.record.id == "a"
  {
    var t := new Table("a", "b", "c");
    assert t.processes[0].id == "a";
    DistinctIdsMatchOnce(t.processes, "a");
    scheduled := t.OnStderr("a", data);
    assert WithId(t.processes, "a")[0] == t.processes[0];
  }

  /** `getCodes`: a stub that returns no codes whatever it is asked for. */
  function GetCodes(desiredCount: int): (codes: seq<string>)
    ensures |codes| == 0
    ensures desiredCount >= 0 ==> |codes| <= desiredCount
  {
    []
  }
}
