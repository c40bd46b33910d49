/**
 The life of one booster process: it takes a request, tells the daemon, runs the application and
 reports its status. This is where the wire protocol meets the supervisor.
*/
module BoosterProcess {
  import opened Protocol
  import opened Request
  import opened RequestProofs
  import opened Session
  import opened BoosterConnection
  import ArgBlock
  import Supervisor

  /** What a booster writes to the daemon's pipe. */
  datatype Report = Report(kind: char, invoker: Supervisor.Pid, respawnDelay: int)

  const EXIT_SUCCESS := 0
  const EXIT_FAILURE := 1

  predicate Accepts(r: LaunchRequest) {
    r.argv != [] && WithinLimits(r) && r.argv[0] != []
  }

  /** The status with which a booster leaves the request to a running instance, if there is one. */
  function LeftTo(options: word, instance: Instance): Option<int> {
    if SecondInstance(options, instance) then Some(if instance.activated then EXIT_SUCCESS else EXIT_FAILURE) else None
  }

  class Booster {
    const kind: char
    const temporaryName: Str
    const process: ArgBlock.Booster
    const connection: Connection
    const appData: AppData
    var reports: seq<Report>

    constructor (kind: char, temporaryName: Str, process: ArgBlock.Booster, connection: Connection, appData: AppData)
      ensures this.kind == kind && this.temporaryName == temporaryName && this.process == process
      ensures this.connection == connection && this.appData == appData && reports == []
    {
      this.kind, this.temporaryName, this.process := kind, temporaryName, process;
      this.connection, this.appData := connection, appData;
      reports := [];
    }

    /** The pid of the invoker if it waits for the exit status, and 0 otherwise. */
    method InvokersPid(peer: Supervisor.Pid) returns (pid: Supervisor.Pid)
      ensures pid == Supervisor.ReportedInvoker(Supervisor.Accepted(peer, connection.sendPid))
    {
      pid := if connection.sendPid then peer else 0;
    }

    method SendDataToParent(peer: Supervisor.Pid)
      modifies `reports
      ensures reports == old(reports) + [Report(kind, if connection.sendPid then peer else 0, appData.delay)]
    {
      var pid := InvokersPid(peer);
      reports := reports + [Report(kind, pid, appData.delay)];
    }

    /** Whatever comes over the socket. For a printed request this means: it succeeds exactly within
        the limits, and then the booster holds the request that was sent. */
    method ReceiveDataFromInvoker() returns (ok: bool)
      modifies connection, appData
      ensures ReceiveApplicationData(old(connection.State())) ==
              if ok then Launch(appData.Value(), connection.State()) else Refuse(connection.State())
      ensures forall r | Sent(r) && PrintRequest(r) == old(connection.input) ::
                ok == Accepts(r) && (ok ==> appData.Value() == AppAsked(r))
    {
      hide ReceiveApplicationData, PrintRequest, WithinLimits;
      forall r | Sent(r) && PrintRequest(r) == connection.input
        ensures ReceiveApplicationData(connection.State()).Launch? == Accepts(r)
        ensures Accepts(r) ==> ReceiveApplicationData(connection.State()).app == AppAsked(r)
      {
        DecodeTheorem(r, connection.State());
      }
      ok := connection.Receive(appData);
    }

    /** With the request in hand: leaves it to a running instance, or takes the application's name
        and tells the daemon. */
    method BecomeApplication(starts: seq<nat>, peer: Supervisor.Pid, instance: Instance) returns (exited: Option<int>)
      requires process.Valid() && process.spaceAvailable > 0 && starts != []
      modifies `reports, process, process.memory
      ensures exited == LeftTo(ToWord(appData.options), instance)
      ensures reports == old(reports) + (if exited.Some? then [] else
                [Report(kind, if connection.sendPid then peer else 0, appData.delay)])
      ensures process.spaceAvailable == old(process.spaceAvailable) <= process.memory.Length
      ensures exited.None? ==>
                process.memory[..] ==
                ArgBlock.AfterRename(old(process.memory[..]), process.spaceAvailable, appData.argv)
    {
      hide ArgBlock.Renamed;
      if HasBit(ToWord(appData.options), OPTION_SINGLE_INSTANCE) && instance.Running? {
        return Some(if instance.activated then EXIT_SUCCESS else EXIT_FAILURE);
      }
      process.RenameProcess(starts, appData.argv);
      SendDataToParent(peer);
      exited := None;
    }

    /** Takes a request and becomes the application: None, or the status the process exits with.
        The daemon is told only of a request that was accepted and will be run. The argument block
        then holds the application's arguments, with no trace of the temporary name. */
    method Initialize(starts: seq<nat>, peer: Supervisor.Pid, instance: Instance) returns (exited: Option<int>)
      requires process.Valid() && process.spaceAvailable == 0 && ArgBlock.Contiguous(process.memory[..], starts)
      modifies this, process, process.memory, connection, appData
      ensures var d := ReceiveApplicationData(old(connection.State()));
              && connection.State() == d.c
              && exited == (if d.Refuse? then Some(1)
                            else if !HasBit(ToWord(d.app.options), 8) then None
                            else if instance == Running(true) then Some(0)
                            else if instance == Running(false) then Some(1)
                            else None)
              && reports == old(reports) + (if exited.Some? then [] else
                   [Report(kind, if d.c.sendPid then peer else 0, d.app.delay)])
              && 0 < process.spaceAvailable == old(process.Capacity(starts)) <= process.memory.Length
              && (exited.None? ==>
                    && appData.Value() == d.app
                    && process.memory[..] ==
                       (if d.app.argv == [] then ArgBlock.Renamed(process.spaceAvailable, [temporaryName])
                        else ArgBlock.Renamed(process.spaceAvailable, d.app.argv))
                       + old(process.memory[..])[process.spaceAvailable..])
    {
      hide ReceiveApplicationData, PrintRequest, ArgBlock.Renamed, ArgBlock.Contiguous, Accepts, Sent, HasBit;
      ArgBlock.SomethingToMeasure(process.memory[..], starts);
      process.RenameProcess(starts, [temporaryName]);
      ghost var named := process.memory[..];
      var ok := ReceiveDataFromInvoker();
      if !ok {
        return Some(EXIT_FAILURE);
      }
      exited := BecomeApplication(starts, peer, instance);
      assert named[process.spaceAvailable..] == old(process.memory[..])[process.spaceAvailable..];
    }

    /** Runs the application, which returns `status`, and reports that to an invoker that waits. */
    method Run(status: int)
      modifies connection
      ensures connection.State() == old(connection.State()).(sent := connection.sent)
      ensures connection.sent == old(connection.sent) +
                (if connection.sendPid && appData.fileName != [] then [MSG_EXIT, ToWord(status)] else [])
    {
      if appData.fileName != [] && connection.sendPid {
        connection.SendAppExitStatus(status);
      }
    }

    /** The whole life, for whatever comes over the socket: the words written back are the script that
        the invoker's side of the conversation is proved against. */
    method Live(starts: seq<nat>, peer: Supervisor.Pid, instance: Instance, status: int) returns (exited: int)
      requires process.Valid() && process.spaceAvailable == 0 && ArgBlock.Contiguous(process.memory[..], starts)
      modifies this, process, process.memory, connection, appData
      ensures var d := ReceiveApplicationData(old(connection.State()));
              && connection.sent == ScriptOf(d, instance, status)
              && exited == (if d.Refuse? then 1
                            else if HasBit(ToWord(d.app.options), 8) && instance == Running(false) then 1 else 0)
              && reports == old(reports) +
                   (if d.Refuse? || (HasBit(ToWord(d.app.options), 8) && instance.Running?) then []
                    else [Report(kind, if d.c.sendPid then peer else 0, d.app.delay)])
    {
      hide ReceiveApplicationData, ArgBlock.Contiguous, ArgBlock.Renamed, HasBit;
      var left := Initialize(starts, peer, instance);
      if left.Some? {
        return left.value;
      }
      Run(status);
      exited := EXIT_SUCCESS;
    }
  }
}
