/**
 * `Bot::Base` of bot_base.rb: `execute` runs `read`, `process` and `write`
 * in that order, marks the read record 'in process' before processing and
 * 'processed' after it, and refuses a process result that is not a Hash.
 * The three steps are the subclass's; the base versions raise.
 */
module BotBase {
  import opened Chat

  const IN_PROCESS := "in process"
  const PROCESSED := "processed"
  const AVOID_PROCESS := "avoid_process"

  /** A Ruby value as far as the pipeline looks at it. */
  datatype Value = NilValue | BoolValue(b: bool) | IntValue(i: int) | StrValue(s: string) | OtherValue

  /** An options hash. */
  type Options = map<string, Value>

  /** The config hash of `initialize`; a missing key is None. */
  datatype Config = Config(readOptions: Option<Options>, processOptions: Option<Options>, writeOptions: Option<Options>)

  /** What `read` returns: an object answering `id` (possibly nil), or one without an `id` method. */
  datatype ReadResult = Record(id: Option<int>) | NoIdMethod

  /** What `process` returns: a Hash, or any other value. */
  datatype ProcessResult = HashResult(fields: map<string, Value>) | NonHash(value: Value)

  datatype Error =
    | FunctionNotImplemented
    | InvalidProcessResponse
    | NoMethodError(name: string)
    | HookError(message: string)

  /** A step of the subclass either returns a value or raises. */
  datatype Outcome<T> = Returns(value: T) | Raises(error: Error)

  /** The subclass's `read`, `process` and `write`. */
  datatype Hooks = Hooks(read: Outcome<ReadResult>, process: Outcome<ProcessResult>, write: Outcome<Value>)

  /** What `execute` does, in order. */
  datatype Step = ReadCalled | StageUpdate(options: Options, id: int, stage: string) | ProcessCalled | WriteCalled

  /** `read_response`, `process_response` and `write_response`, nil until assigned. */
  datatype Responses = Responses(read: Option<ReadResult>, process: Option<ProcessResult>, write: Option<Value>)

  datatype Result = Done(write: Value) | Failed(error: Error)

  /** One run of `execute`: its steps, the responses afterwards and how it ended. */
  datatype Run = Run(trace: seq<Step>, responses: Responses, result: Result)

  /** The base `read`, `process` and `write`: each raises `FunctionNotImplemented`. */
  function BaseHooks(): Hooks {
    Hooks(Raises(FunctionNotImplemented), Raises(FunctionNotImplemented), Raises(FunctionNotImplemented))
  }

  /** `config[key] || {}`. */
  function OptionsOr(o: Option<Options>): (r: Options)
    ensures o.None? ==> r == map[]
    ensures o.Some? ==> r == o.value
  {
    if o.Some? then o.value else map[]
  }

  /** `read_options[:avoid_process].eql?(true)`: only the value `true` itself counts. */
  predicate AvoidProcess(readOptions: Options) {
    AVOID_PROCESS in readOptions && readOptions[AVOID_PROCESS] == BoolValue(true)
  }

  /**
   * `write_read_response_in_process` / `write_read_response_processed`:
   * skipped when `avoid_process` is true or the id is nil, otherwise one
   * update of the record `id` to `stage`; asking a result without `id` raises.
   */
  function StageSteps(readOptions: Options, response: ReadResult, stage: string): (r: Outcome<seq<Step>>)
    ensures r.Raises? <==> !AvoidProcess(readOptions) && response.NoIdMethod?
    ensures r.Returns? ==> |r.value| <= 1 && forall k | 0 <= k < |r.value| :: r.value[k].StageUpdate?
    ensures r.Returns? && r.value != [] ==>
              response.Record? && response.id.Some? && r.value == [StageUpdate(readOptions, response.id.value, stage)]
  {
    if AvoidProcess(readOptions) then Returns([])
    else match response
      case NoIdMethod => Raises(NoMethodError("id"))
      case Record(None) => Returns([])
      case Record(Some(id)) => Returns([StageUpdate(readOptions, id, stage)])
  }

  /** `execute`, from the responses `before` it starts. */
  function Pipeline(readOptions: Options, hooks: Hooks, before: Responses): Run {
    match hooks.read
    case Raises(e) => Run([ReadCalled], before, Failed(e))
    case Returns(rr) =>
      var r1 := before.(read := Some(rr));
      match StageSteps(readOptions, rr, IN_PROCESS)
      case Raises(e) => Run([ReadCalled], r1, Failed(e))
      case Returns(u1) =>
        var t1 := [ReadCalled] + u1 + [ProcessCalled];
        match hooks.process
        case Raises(e) => Run(t1, r1, Failed(e))
        case Returns(pr) =>
          var r2 := r1.(process := Some(pr));
          if !pr.HashResult? then Run(t1, r2, Failed(InvalidProcessResponse))
          else
            match StageSteps(readOptions, rr, PROCESSED)
            case Raises(e) => Run(t1, r2, Failed(e))
            case Returns(u2) =>
              var t2 := t1 + u2 + [WriteCalled];
              match hooks.write
              case Raises(e) => Run(t2, r2, Failed(e))
              case Returns(w) => Run(t2, r2.(write := Some(w)), Done(w))
  }

  /** Position of the first `s` in `trace` (|trace| when absent). */
  function IndexOf(trace: seq<Step>, s: Step): (n: nat)
    ensures n <= |trace|
    ensures n < |trace| ==> trace[n] == s
    ensures forall k | 0 <= k < n :: trace[k] != s
  {
    if trace == [] then 0 else if trace[0] == s then 0 else 1 + IndexOf(trace[1..], s)
  }

  /** The stage updates of a trace, in order. */
  function Updates(trace: seq<Step>): (u: seq<Step>)
    ensures forall k | 0 <= k < |u| :: u[k].StageUpdate? && u[k] in trace
    ensures |u| <= |trace|
  {
    if trace == [] then []
    else if trace[0].StageUpdate? then [trace[0]] + Updates(trace[1..])
    else Updates(trace[1..])
  }

  class Base {
    const readOptions: Options
    const processOptions: Options
    const writeOptions: Options
    /** The subclass's `read`, `process` and `write`. */
    const hooks: Hooks
    var readResponse: Option<ReadResult>
    var processResponse: Option<ProcessResult>
    var writeResponse: Option<Value>
    /** Every step taken so far, in order. */
    var trace: seq<Step>

    /** `initialize`: each missing options hash defaults to `{}`. */
    constructor (config: Config, hooks: Hooks)
      ensures readOptions == OptionsOr(config.readOptions)
      ensures processOptions == OptionsOr(config.processOptions)
      ensures writeOptions == OptionsOr(config.writeOptions)
      ensures this.hooks == hooks
      ensures readResponse == None && processResponse == None && writeResponse == None && trace == []
    {
      readOptions := OptionsOr(config.readOptions);
      processOptions := OptionsOr(config.processOptions);
      writeOptions := OptionsOr(config.writeOptions);
      this.hooks := hooks;
      readResponse, processResponse, writeResponse := None, None, None;
      trace := [];
    }

    function Responded(): Responses
      reads this
    {
      Responses(readResponse, processResponse, writeResponse)
    }

    method Execute() returns (result: Result)
      modifies this`readResponse, this`processResponse, this`writeResponse, this`trace
      ensures var run := Pipeline(readOptions, hooks, old(Responded()));
              trace == old(trace) + run.trace && Responded() == run.responses && result == run.result
    {
      trace := trace + [ReadCalled];
      if hooks.read.Raises? {
        return Failed(hooks.read.error);
      }
      readResponse := Some(hooks.read.value);
      var err := WriteStage(hooks.read.value, IN_PROCESS);
      if err.Some? {
        return Failed(err.value);
      }
      trace := trace + [ProcessCalled];
      if hooks.process.Raises? {
        return Failed(hooks.process.error);
      }
      processResponse := Some(hooks.process.value);
      if !hooks.process.value.HashResult? {
        return Failed(InvalidProcessResponse);
      }
      err := WriteStage(hooks.read.value, PROCESSED);
      if err.Some? {
        // cannot happen: the 'in process' update already asked the same response for its `id`
        assert false;
      }
      trace := trace + [WriteCalled];
      if hooks.write.Raises? {
        return Failed(hooks.write.error);
      }
      writeResponse := Some(hooks.write.value);
      return Done(hooks.write.value);
    }

    /** The shared body of the two `write_read_response_*` methods. */
    method WriteStage(response: ReadResult, stage: string) returns (err: Option<Error>)
      modifies this`trace
      ensures match StageSteps(readOptions, response, stage)
              case Raises(e) => err == Some(e) && trace == old(trace)
              case Returns(u) => err == None && trace == old(trace) + u
    {
      if readOptions.Keys >= {AVOID_PROCESS} && readOptions[AVOID_PROCESS] == BoolValue(true) {
        return None;
      }
      if response.NoIdMethod? {
        return Some(NoMethodError("id"));
      }
      if response.id.None? {
        return None;
      }
      trace := trace + [StageUpdate(readOptions, response.id.value, stage)];
      return None;
    }
  }

  /**
   * A run that succeeds calls read, then process, then write, each once,
   * with the 'in process' update before process and the 'processed' update
   * between process and write; the three responses are all assigned.
   */
  lemma DoneOrder(readOptions: Options, hooks: Hooks, before: Responses)
    requires Pipeline(readOptions, hooks, before).result.Done?
    ensures var run := Pipeline(readOptions, hooks, before);
            && run.trace[0] == ReadCalled
            && IndexOf(run.trace, ReadCalled) < IndexOf(run.trace, ProcessCalled) < IndexOf(run.trace, WriteCalled) < |run.trace|
            && run.trace[|run.trace| - 1] == WriteCalled
            && run.responses.read == Some(hooks.read.value)
            && run.responses.process == Some(hooks.process.value)
            && run.responses.write == Some(hooks.write.value)
  {
    var run := Pipeline(readOptions, hooks, before);
    var u1 := StageSteps(readOptions, hooks.read.value, IN_PROCESS).value;
    var u2 := StageSteps(readOptions, hooks.read.value, PROCESSED).value;
    assert run.trace == [ReadCalled] + u1 + [ProcessCalled] + u2 + [WriteCalled];
    PhaseOrder(u1, u2);
  }

  /** Helper: read, process and write come in that order around at most one update each. */
  lemma PhaseOrder(u1: seq<Step>, u2: seq<Step>)
    requires |u1| <= 1 && forall k | 0 <= k < |u1| :: u1[k].StageUpdate?
    requires |u2| <= 1 && forall k | 0 <= k < |u2| :: u2[k].StageUpdate?
    ensures var t := [ReadCalled] + u1 + [ProcessCalled] + u2 + [WriteCalled];
            && t[0] == ReadCalled && t[|t| - 1] == WriteCalled
            && IndexOf(t, ReadCalled) == 0
            && IndexOf(t, ProcessCalled) == |u1| + 1
            && IndexOf(t, WriteCalled) == |u1| + |u2| + 2 == |t| - 1
  {
    var t := [ReadCalled] + u1 + [ProcessCalled] + u2 + [WriteCalled];
    IndexOfAt(t, ReadCalled, 0);
    IndexOfAt(t, ProcessCalled, |u1| + 1);
    IndexOfAt(t, WriteCalled, |u1| + |u2| + 2);
  }

  /** Helper: the first occurrence is where `s` occurs with no earlier occurrence. */
  lemma IndexOfAt(trace: seq<Step>, s: Step, p: int)
    requires 0 <= p < |trace| && trace[p] == s
    requires forall k | 0 <= k < p :: trace[k] != s
    ensures IndexOf(trace, s) == p
  {
  }

  /**
   * With a record id and no `avoid_process`, a successful run holds exactly
   * two stage updates of that id: 'in process' right before process and
   * 'processed' right after it.
   */
  lemma StageUpdatesAroundProcess(readOptions: Options, hooks: Hooks, before: Responses, id: int)
    requires !AvoidProcess(readOptions) && hooks.read == Returns(Record(Some(id)))
    requires Pipeline(readOptions, hooks, before).result.Done?
    ensures Pipeline(readOptions, hooks, before).trace ==
            [ReadCalled, StageUpdate(readOptions, id, IN_PROCESS), ProcessCalled,
             StageUpdate(readOptions, id, PROCESSED), WriteCalled]
  {
  }

  /** With `avoid_process` true or a nil id, no stage update is ever issued. */
  lemma NoUpdateWhenSkipped(readOptions: Options, hooks: Hooks, before: Responses)
    requires AvoidProcess(readOptions) || hooks.read == Returns(Record(None))
    ensures Updates(Pipeline(readOptions, hooks, before).trace) == []
  {
    var t := Pipeline(readOptions, hooks, before).trace;
    assert forall k | 0 <= k < |t| :: !t[k].StageUpdate?;
    NoUpdatesIn(t);
  }

  /** Helper: a trace without stage updates has none to list. */
  lemma {:induction false} NoUpdatesIn(t: seq<Step>)
    requires forall k | 0 <= k < |t| :: !t[k].StageUpdate?
    ensures Updates(t) == []
  {
    if t != [] {
      assert forall k | 0 <= k < |t[1..]| :: t[1..][k] == t[k + 1];
      NoUpdatesIn(t[1..]);
    }
  }

  /**
   * A process result that is not a Hash ends the run with
   * `InvalidProcessResponse`: no 'processed' update and no write, although
   * the result is kept in `process_response`.
   */
  lemma NonHashStops(readOptions: Options, hooks: Hooks, before: Responses, v: Value)
    requires hooks.read.Returns? && hooks.process == Returns(NonHash(v))
    requires StageSteps(readOptions, hooks.read.value, IN_PROCESS).Returns?
    ensures var run := Pipeline(readOptions, hooks, before);
            && run.result == Failed(InvalidProcessResponse)
            && run.trace[|run.trace| - 1] == ProcessCalled
            && WriteCalled !in run.trace
            && (forall k | 0 <= k < |run.trace| :: !(run.trace[k].StageUpdate? && run.trace[k].stage == PROCESSED))
            && run.responses.process == Some(NonHash(v))
            && run.responses.write == before.write
  {
  }

  /** The base class on its own fails at `read` with `FunctionNotImplemented`, having done nothing else. */
  lemma BaseFailsAtRead(readOptions: Options, before: Responses)
    ensures Pipeline(readOptions, BaseHooks(), before) == Run([ReadCalled], before, Failed(FunctionNotImplemented))
  {
  }

  /** Every stage update of a run is about the id `read` returned. */
  lemma UpdatesTargetReadId(readOptions: Options, hooks: Hooks, before: Responses, s: Step)
    requires s in Pipeline(readOptions, hooks, before).trace && s.StageUpdate?
    ensures hooks.read.Returns? && hooks.read.value == Record(Some(s.id))
    ensures s.options == readOptions && (s.stage == IN_PROCESS || s.stage == PROCESSED)
  {
    var t := Pipeline(readOptions, hooks, before).trace;
    if hooks.read.Returns? && StageSteps(readOptions, hooks.read.value, IN_PROCESS).Returns? {
      var rr := hooks.read.value;
      var o1 := StageSteps(readOptions, rr, IN_PROCESS);
      var o2 := StageSteps(readOptions, rr, PROCESSED);
      if t == [ReadCalled] + o1.value + [ProcessCalled] {
        assert s in o1.value;
      } else {
        assert o2.Returns? && t == [ReadCalled] + o1.value + [ProcessCalled] + o2.value + [WriteCalled];
        assert s in o1.value || s in o2.value;
      }
    }
  }
}
