// backend/internal/claudecli/classify.go: from the stream of a run to a stored
// result. What a text says (an auth failure, a usage limit, a denial) is decided
// by regular expressions there and is a flag here.
module Classify {
  import opened Jobs

  datatype Block =
    | ToolUse(id: string, name: string)
    | ToolResult(isError: bool, saysUsage: bool, saysDenied: bool, toolUse: string)
    | Text

  datatype Outcome = OutcomeSucceeded | OutcomeNeedsInput | OutcomeFailed

  // The result line. outcome is the structured outcome, if a valid one is found.
  datatype Final = Final(maxTurns: bool, isError: bool, outcome: Option<Outcome>)

  datatype StreamEvent = StreamEvent(sessionId: string, final: Option<Final>, denials: seq<string>,
                                     retrySaysUsage: bool, blocks: seq<Block>)

  // ----- what a stream says, independently of how it is collected -----

  ghost function Uses(blocks: seq<Block>): nat
  {
    if blocks == [] then 0 else Uses(blocks[..|blocks| - 1]) + if blocks[|blocks| - 1].ToolUse? then 1 else 0
  }

  ghost function ToolUses(stream: seq<StreamEvent>): nat
  {
    if stream == [] then 0 else ToolUses(stream[..|stream| - 1]) + Uses(stream[|stream| - 1].blocks)
  }

  predicate UsageBlock(b: Block) { b.ToolResult? && b.isError && b.saysUsage }

  ghost predicate AnyUsage(blocks: seq<Block>)
  {
    blocks != [] && (AnyUsage(blocks[..|blocks| - 1]) || UsageBlock(blocks[|blocks| - 1]))
  }

  ghost predicate RateLimited(stream: seq<StreamEvent>)
  {
    stream != [] &&
    var e := stream[|stream| - 1];
    RateLimited(stream[..|stream| - 1]) || e.retrySaysUsage || AnyUsage(e.blocks)
  }

  ghost function LastFinal(stream: seq<StreamEvent>): Option<Final>
  {
    if stream == [] then None
    else if stream[|stream| - 1].final.Some? then stream[|stream| - 1].final
    else LastFinal(stream[..|stream| - 1])
  }

  ghost function LastSession(stream: seq<StreamEvent>): string
  {
    if stream == [] then ""
    else if stream[|stream| - 1].sessionId != "" then stream[|stream| - 1].sessionId
    else LastSession(stream[..|stream| - 1])
  }

  ghost function NamesIn(names: seq<string>): set<string>
  {
    set i | 0 <= i < |names| :: names[i]
  }

  // The name last announced for each tool use id.
  ghost function NamesAfter(names: map<string, string>, blocks: seq<Block>): map<string, string>
  {
    if blocks == [] then names
    else
      var before, b := NamesAfter(names, blocks[..|blocks| - 1]), blocks[|blocks| - 1];
      if b.ToolUse? && b.id != "" then before[b.id := b.name] else before
  }

  ghost function NamesOf(stream: seq<StreamEvent>): map<string, string>
  {
    if stream == [] then map[] else NamesAfter(NamesOf(stream[..|stream| - 1]), stream[|stream| - 1].blocks)
  }

  // The tool a denial is about.
  function DeniedName(names: map<string, string>, id: string): string
  {
    if id in names && names[id] != "" then names[id] else "unknown tool"
  }

  predicate DenialBlock(b: Block) { b.ToolResult? && b.isError && b.saysDenied }

  ghost function DeniedIn(names: map<string, string>, blocks: seq<Block>): set<string>
  {
    if blocks == [] then {}
    else
      var before, b := blocks[..|blocks| - 1], blocks[|blocks| - 1];
      DeniedIn(names, before) + if DenialBlock(b) then {DeniedName(NamesAfter(names, before), b.toolUse)} else {}
  }

  ghost function ListedIn(e: StreamEvent): set<string> { if e.final.Some? then NamesIn(e.denials) else {} }

  // The tools the result lines list, or a tool result says were denied.
  ghost function Denied(stream: seq<StreamEvent>): set<string>
  {
    if stream == [] then {}
    else
      var before, e := stream[..|stream| - 1], stream[|stream| - 1];
      Denied(before) + ListedIn(e) + DeniedIn(NamesOf(before), e.blocks)
  }

  // What a collector holds is what the stream says.
  ghost predicate Tells(stream: seq<StreamEvent>, toolCalls: nat, rateLimited: bool, final: Option<Final>,
                        sessionId: string, names: map<string, string>, denied: set<string>)
  {
    && toolCalls == ToolUses(stream)
    && (rateLimited <==> RateLimited(stream))
    && final == LastFinal(stream)
    && sessionId == LastSession(stream)
    && names == NamesOf(stream)
    && denied == Denied(stream)
  }

  // How each reading of a stream takes one more event.
  lemma OneMoreEvent(stream: seq<StreamEvent>, e: StreamEvent, toolCalls: nat, rateLimited: bool, final: Option<Final>,
                     sessionId: string, names: map<string, string>, denied: set<string>)
    requires Tells(stream, toolCalls, rateLimited, final, sessionId, names, denied)
    ensures Tells(stream + [e], toolCalls + Uses(e.blocks), rateLimited || e.retrySaysUsage || AnyUsage(e.blocks),
                  if e.final.Some? then e.final else final, if e.sessionId != "" then e.sessionId else sessionId,
                  NamesAfter(names, e.blocks), denied + ListedIn(e) + DeniedIn(names, e.blocks))
  {
    assert (stream + [e])[..|stream|] == stream;
  }

  class Collector {
    var sessionId: string
    var final: Option<Final>
    var toolCalls: nat
    var rateLimited: bool
    var denials: seq<string>
    var toolNameById: map<string, string>
    var seenDenial: set<string>
    ghost var stream: seq<StreamEvent>

    // denials lists each seen denial once.
    ghost predicate NoRepeats()
      reads this`denials, this`seenDenial
    {
      && (forall i, j | 0 <= i < j < |denials| :: denials[i] != denials[j])
      && (forall d :: d in denials <==> d in seenDenial)
    }

    // The collector holds exactly what the stream so far says.
    ghost predicate Valid()
      reads this
    {
      NoRepeats() && Tells(stream, toolCalls, rateLimited, final, sessionId, toolNameById, seenDenial)
    }

    constructor ()
      ensures Valid() && stream == []
    {
      sessionId, final, toolCalls, rateLimited := "", None, 0, false;
      denials, toolNameById, seenDenial := [], map[], {};
      stream := [];
    }

    method Deny(name: string)
      requires NoRepeats()
      modifies this`denials, this`seenDenial
      ensures NoRepeats() && seenDenial == old(seenDenial) + {name}
    {
      if name !in seenDenial {
        seenDenial := seenDenial + {name};
        denials := denials + [name];
      }
    }

    method ObserveBlock(b: Block)
      requires NoRepeats()
      modifies this`toolCalls, this`rateLimited, this`toolNameById, this`denials, this`seenDenial
      ensures NoRepeats()
      ensures toolCalls == old(toolCalls) + if b.ToolUse? then 1 else 0
      ensures rateLimited <==> old(rateLimited) || UsageBlock(b)
      ensures toolNameById == if b.ToolUse? && b.id != "" then old(toolNameById)[b.id := b.name] else old(toolNameById)
      ensures seenDenial == old(seenDenial) + if DenialBlock(b) then {DeniedName(old(toolNameById), b.toolUse)} else {}
    {
      match b {
        case ToolUse(id, name) =>
          toolCalls := toolCalls + 1;
          if id != "" {
            toolNameById := toolNameById[id := name];
          }
        case ToolResult(isError, saysUsage, saysDenied, toolUse) =>
          if isError {
            if saysUsage {
              rateLimited := true;
            }
            if saysDenied {
              var name := if toolUse in toolNameById then toolNameById[toolUse] else "";
              Deny(if name == "" then "unknown tool" else name);
            }
          }
        case Text =>
      }
    }

    method ObserveBlocks(blocks: seq<Block>)
      requires NoRepeats()
      modifies this`toolCalls, this`rateLimited, this`toolNameById, this`denials, this`seenDenial
      ensures NoRepeats()
      ensures toolCalls == old(toolCalls) + Uses(blocks)
      ensures rateLimited <==> old(rateLimited) || AnyUsage(blocks)
      ensures toolNameById == NamesAfter(old(toolNameById), blocks)
      ensures seenDenial == old(seenDenial) + DeniedIn(old(toolNameById), blocks)
    {
      for i := 0 to |blocks|
        invariant NoRepeats()
        invariant toolCalls == old(toolCalls) + Uses(blocks[..i])
        invariant rateLimited <==> old(rateLimited) || AnyUsage(blocks[..i])
        invariant toolNameById == NamesAfter(old(toolNameById), blocks[..i])
        invariant seenDenial == old(seenDenial) + DeniedIn(old(toolNameById), blocks[..i])
      {
        assert blocks[..i + 1][..i] == blocks[..i];
        ObserveBlock(blocks[i]);
      }
      assert blocks[..|blocks|] == blocks;
    }

    method ObserveDenials(names: seq<string>)
      requires NoRepeats()
      modifies this`denials, this`seenDenial
      ensures NoRepeats() && seenDenial == old(seenDenial) + NamesIn(names)
    {
      for i := 0 to |names|
        invariant NoRepeats() && seenDenial == old(seenDenial) + NamesIn(names[..i])
      {
        assert NamesIn(names[..i + 1]) == NamesIn(names[..i]) + {names[i]} by { NamesSnoc(names, i); }
        Deny(names[i]);
      }
      assert names[..|names|] == names;
    }

    // Everything about an event but its blocks.
    method ObserveLine(e: StreamEvent)
      requires NoRepeats()
      modifies this`sessionId, this`final, this`rateLimited, this`denials, this`seenDenial
      ensures NoRepeats() && seenDenial == old(seenDenial) + ListedIn(e)
      ensures sessionId == if e.sessionId != "" then e.sessionId else old(sessionId)
      ensures final == if e.final.Some? then e.final else old(final)
      ensures rateLimited <==> old(rateLimited) || e.retrySaysUsage
    {
      if e.sessionId != "" {
        sessionId := e.sessionId;
      }
      if e.final.Some? {
        final := e.final;
        ObserveDenials(e.denials);
      }
      if e.retrySaysUsage {
        rateLimited := true;
      }
    }

    // One event more: everything but the blocks first, then the blocks in order.
    method Observe(e: StreamEvent)
      requires Valid()
      modifies this
      ensures Valid() && stream == old(stream) + [e]
    {
      ghost var before := stream;
      ghost var calls, limited, last, session := toolCalls, rateLimited, final, sessionId;
      ghost var names, denied := toolNameById, seenDenial;
      ObserveLine(e);
      ObserveBlocks(e.blocks);
      OneMoreEvent(before, e, calls, limited, last, session, names, denied);
      stream := before + [e];
    }

    // What Classify is given, once the subprocess has ended: the stream's part
    // and the executor's.
    method Report(cancelled: bool, timedOut: bool, missing: nat, pending: nat, saysAuth: bool, saysUsage: bool,
                  exitError: bool)
      returns (r: Run)
      requires Valid()
      ensures r == Run(ToolUses(stream), LastSession(stream), RateLimited(stream), LastFinal(stream),
                       cancelled, timedOut, missing, pending, saysAuth, saysUsage, exitError)
    {
      r := Run(toolCalls, sessionId, rateLimited, final,
               cancelled, timedOut, missing, pending, saysAuth, saysUsage, exitError);
    }
  }

  lemma NamesSnoc(names: seq<string>, i: nat)
    requires i < |names|
    ensures NamesIn(names[..i + 1]) == NamesIn(names[..i]) + {names[i]}
  {
    assert names[..i + 1] == names[..i] + [names[i]];
    forall x | x in NamesIn(names[..i]) ensures x in NamesIn(names[..i + 1]) {
      var k :| 0 <= k < i && names[..i][k] == x;
      assert names[..i + 1][k] == x;
    }
    assert names[..i + 1][i] == names[i];
  }

  // ----- classification -----

  // A run that is over, as the executor sees it.
  datatype Run = Run(toolCalls: nat, sessionId: string, rateLimited: bool, final: Option<Final>,
                     cancelled: bool, timedOut: bool, missing: nat, pending: nat,
                     saysAuth: bool, saysUsage: bool, exitError: bool)

  function Classify(r: Run): Result
  {
    var fail := (kind: ErrorKind) => Result(Failed, kind, r.sessionId, r.toolCalls);
    if r.cancelled then Result(Cancelled, NoError, r.sessionId, r.toolCalls)
    else if r.missing > 0 then fail(CapabilityMissing)
    else if r.pending > 0 then fail(CapabilityPending)
    else if r.timedOut then fail(Timeout)
    else if r.saysAuth then fail(Auth)
    else if r.rateLimited || r.saysUsage then fail(UsageLimit)
    else if r.final.Some? && r.final.value.maxTurns then fail(MaxTurns)
    else if r.exitError then fail(CliError)
    else if r.final.None? then fail(CliError)
    else if r.final.value.isError then fail(CliError)
    else match r.final.value.outcome
      case None => fail(InvalidOutcome)
      case Some(OutcomeSucceeded) => Result(Succeeded, NoError, r.sessionId, r.toolCalls)
      case Some(OutcomeNeedsInput) => Result(NeedsInput, NoError, r.sessionId, r.toolCalls)
      case Some(OutcomeFailed) => fail(NoError)
  }

  // A job that keeps reporting "pending" is retried this often.
  const MAX_CAPABILITY_RETRIES: nat := 3

  // The executor's decision: back to the queue, or finish.
  predicate MayRequeue(attempts: nat, r: Result)
  {
    r.toolCalls == 0 &&
    (r.errorKind.Blocking() || (r.errorKind == CapabilityPending && attempts < MAX_CAPABILITY_RETRIES))
  }

  // Every run ends the job and keeps its tool count.
  lemma ClassifyEnds(r: Run)
    ensures Classify(r).status.Terminal() && Classify(r).toolCalls == r.toolCalls
    ensures Classify(r).status != Interrupted
  {
  }

  // A job succeeds exactly when nothing at any level went wrong.
  lemma SuccessMeansNothingFailed(r: Run)
    ensures Classify(r).status == Succeeded <==>
              && !r.cancelled && r.missing == 0 && r.pending == 0 && !r.timedOut
              && !r.saysAuth && !r.rateLimited && !r.saysUsage && !r.exitError
              && r.final.Some? && !r.final.value.maxTurns && !r.final.value.isError
              && r.final.value.outcome == Some(OutcomeSucceeded)
  {
  }

  // What each ending means, the more specific explanation first. early: nothing
  // before the result line explains how the run went.
  lemma EveryEndingHasItsCause(r: Run)
    ensures var c := Classify(r);
            var able := !r.cancelled && r.missing == 0 && r.pending == 0;
            var early := able && !r.timedOut && !r.saysAuth && !r.rateLimited && !r.saysUsage;
            var whole := early && r.final.Some? && !r.final.value.maxTurns && !r.exitError && !r.final.value.isError;
            && (c.status == Cancelled <==> r.cancelled)
            && (c.status == Succeeded <==> whole && r.final.value.outcome == Some(OutcomeSucceeded))
            && (c.status == NeedsInput <==> whole && r.final.value.outcome == Some(OutcomeNeedsInput))
            && (c.status == Failed <==> c.status != Cancelled && c.status != Succeeded && c.status != NeedsInput)
            && (c.errorKind == CapabilityMissing <==> !r.cancelled && r.missing > 0)
            && (c.errorKind == CapabilityPending <==> !r.cancelled && r.missing == 0 && r.pending > 0)
            && (c.errorKind == Timeout <==> able && r.timedOut)
            && (c.errorKind == Auth <==> able && !r.timedOut && r.saysAuth)
            && (c.errorKind == UsageLimit <==> able && !r.timedOut && !r.saysAuth && (r.rateLimited || r.saysUsage))
            && (c.errorKind == MaxTurns <==> early && r.final.Some? && r.final.value.maxTurns)
            && (c.errorKind == CliError <==>
                  && early && !(r.final.Some? && r.final.value.maxTurns)
                  && (r.exitError || r.final.None? || r.final.value.isError))
            && (c.errorKind == InvalidOutcome <==> whole && r.final.value.outcome == None)
            && (c.errorKind == NoError <==> r.cancelled || (whole && r.final.value.outcome.Some?))
            && c.sessionId == r.sessionId && c.toolCalls == r.toolCalls
  {
  }

  // An operator's cancellation is never a failure, is never requeued and never
  // blocks the executor; and a run that used a tool is never requeued. A run
  // without tool calls is, exactly for an auth or usage failure, or while its
  // connectors are still connecting and it has not been tried three times.
  lemma RequeueIsSafe(r: Run, attempts: nat)
    ensures MayRequeue(attempts, Classify(r)) <==>
              && r.toolCalls == 0 && !r.cancelled && r.missing == 0
              && if r.pending > 0 then attempts < 3 else !r.timedOut && (r.saysAuth || r.rateLimited || r.saysUsage)
    ensures Classify(r).status == Cancelled <==> r.cancelled
    ensures MayRequeue(attempts, Classify(r)) ==>
              !r.cancelled && r.toolCalls == 0 && Classify(r).status == Failed
    ensures Classify(r).errorKind.Blocking() <==>
              && !r.cancelled && r.missing == 0 && r.pending == 0 && !r.timedOut
              && (r.saysAuth || r.rateLimited || r.saysUsage)
  {
  }
}
