/** One node over its whole life: every input its owner may feed it, the disk its batches
    are written to, restarts, and the history its compactions and snapshots hide. */
module NodeRuns {
  import opened RaftTypes
  import opened Quorum
  import opened NodeModel
  import opened Durable

  datatype Input =
    | Handle(event: Event)
    | ClientCommand(command: seq<Byte>)
    | ChangeVoters(newVoters: seq<NodeId>)
    | Learn(id: NodeId)
    | Unlearn(id: NodeId)
    | CompactTo(upTo: nat, data: seq<Byte>)

  /** What the code itself insists on to carry `input` out. */
  predicate Runs(n: State, input: Input) {
    match input
    case Handle(event) => Accepts(n, event)
    case ClientCommand(command) => n.role == Leader ==> HasVoters(AppendOwn(n, Command(command)))
    case ChangeVoters(_) => n.role == Leader ==> n.currentConfig.voters != []
    case CompactTo(_, _) => n.commitIndex <= LastLogIndex(n)
    case _ => true
  }

  function Outcome(n: State, input: Input): (State, seq<Effect>)
    requires Runs(n, input)
  {
    match input
    case Handle(event) => Step(n, event)
    case ClientCommand(command) =>
      var (n', proposal) := Propose(n, command);
      (n', if proposal.Accepted? then proposal.effects else [])
    case ChangeVoters(newVoters) =>
      var (n', proposal) := ProposeConfigChange(n, newVoters);
      (n', if proposal.Accepted? then proposal.effects else [])
    case Learn(id) => AddLearner(n, id)
    case Unlearn(id) => RemoveLearner(n, id)
    case CompactTo(upTo, data) =>
      var (n', outcome) := Compact(n, upTo, data);
      (n', if outcome.Compacted? then outcome.effects else [])
  }

  lemma OutcomeFaithful(n: State, input: Input, d: Disk)
    requires Runs(n, input) && Mirrors(n, d)
    ensures Replayable(d, Outcome(n, input).1) && Mirrors(Outcome(n, input).0, ApplyAll(d, Outcome(n, input).1))
  {
    SendsFaithful(n, n, [], d);
    match input
    case Handle(event) => StepFaithful(n, event, d);
    case ClientCommand(command) => if n.role == Leader { ProposeEntryFaithful(n, Command(command), d); }
    case ChangeVoters(newVoters) =>
      if n.role == Leader && newVoters != [] { ProposeConfigChangeFaithful(n, newVoters, d); }
    case Learn(id) => AddLearnerFaithful(n, id, d);
    case Unlearn(id) => RemoveLearnerFaithful(n, id, d);
    case CompactTo(upTo, data) => CompactFaithful(n, upTo, data, d);
  }
}
