/** The run: the context it shares, the loops over mappings, assignments and matched cards,
    the calls it makes to the board service and the four counters it reports. */
module Sync {
  import opened Wrappers
  import opened Strings
  import opened Time
  import opened Urls
  import opened Config
  import opened Trello
  import opened Canvas
  import opened Reconcile

  /** The counters of the summary line. */
  datatype Counts = Counts(assignments: nat, created: nat, updated: nat, upToDate: nat)

  const NoCounts: Counts := Counts(0, 0, 0, 0)

  /** What the run has done so far: its counters and its calls to the board service, in order. */
  datatype Progress = Progress(counts: Counts, sent: seq<Call>)

  /** Where a stage leaves the run: its progress, and whether it stopped on an error. */
  datatype Step = Step(progress: Progress, outcome: Outcome<Error>)

  /** What a run reads and never changes: the board snapshot, the two ids looked up on it,
      the foreign functions, and the answers of the two services (the board service's by
      the number of the call, the course service's by course id). */
  datatype Env = Env(
    board: Board,
    canvasUrlFieldId: string,
    newCardListId: string,
    foreign: Foreign,
    trello: (nat, Call) -> Reply<Card>,
    canvas: string -> CourseReply)

  function Sent(p: Progress, call: Call): Progress
  {
    p.(sent := p.sent + [call])
  }

  /** The board service's answer to the next call. */
  function Answer(env: Env, p: Progress, call: Call): Reply<Card>
  {
    env.trello(|p.sent|, call)
  }

  function BumpAssignments(p: Progress): Progress
  {
    p.(counts := p.counts.(assignments := p.counts.assignments + 1))
  }

  function BumpCreated(p: Progress): Progress
  {
    p.(counts := p.counts.(created := p.counts.created + 1))
  }

  function BumpUpdated(p: Progress): Progress
  {
    p.(counts := p.counts.(updated := p.counts.updated + 1))
  }

  function BumpUpToDate(p: Progress): Progress
  {
    p.(counts := p.counts.(upToDate := p.counts.upToDate + 1))
  }

  /** The update call for a stale card: the full patch, whichever field differed. */
  function UpdateCall(env: Env, card: Card, a: Assignment, newDesc: string): Call
  {
    Update(card.id, UpdatePatch(a.dueAt, env.foreign.submitted(a), newDesc, env.foreign.rfc3339))
  }

  function Stale(env: Env, card: Card, a: Assignment, newDesc: string): bool
  {
    NeedsUpdate(Mismatches(card, a.dueAt, env.foreign.submitted(a), newDesc))
  }

  /** The loop over the matched cards: a fresh card bumps the up-to-date counter, a stale one
      is updated and then bumps the updated counter; a failed update stops the loop. */
  function UpdateExisting(env: Env, p: Progress, cards: seq<Card>, a: Assignment, newDesc: string): Step
    decreases |cards|
  {
    if |cards| == 0 then Step(p, Pass)
    else if !Stale(env, cards[0], a, newDesc) then
      UpdateExisting(env, BumpUpToDate(p), cards[1..], a, newDesc)
    else
      var call := UpdateCall(env, cards[0], a, newDesc);
      match UpdateCardOutcome(cards[0].id, Answer(env, p, call))
      case Fail(e) => Step(Sent(p, call), Fail(WrapErr(e, "Failed to update card")))
      case Pass => UpdateExisting(env, BumpUpdated(Sent(p, call)), cards[1..], a, newDesc)
  }

  /** The create branch: create the card, then set its tracking field to the key, then bump
      the created counter. */
  function CreateNew(env: Env, p: Progress, a: Assignment, key: string, labelId: string, newDesc: string): Step
  {
    var fields := NewCardFields(a, newDesc, env.foreign.submitted(a), labelId);
    var create := Create(env.newCardListId, fields);
    match CreateCardOutcome(fields, Answer(env, p, create))
    case Err(e) => Step(Sent(p, create), Fail(WrapErr(e, "Failed to create card")))
    case Ok(card) =>
      var q := Sent(p, create);
      var track := SetCustomField(card.id, env.canvasUrlFieldId, Text(key));
      match SetCustomFieldOutcome(card.id, Answer(env, q, track))
      case Fail(e) => Step(Sent(q, track), Fail(WrapErr(e, "Failed to set Canvas URL custom field")))
      case Pass => Step(BumpCreated(Sent(q, track)), Pass)
  }

  /** `sync_assignment`. */
  function SyncAssignmentSpec(env: Env, p: Progress, mapping: Mapping, a: Assignment): Step
  {
    match CanvasUrl(a.htmlUrl)
    case Err(e) => Step(p, Fail(e))
    case Ok(key) =>
      match FindLabel(env.board, mapping.trelloLabelName)
      case Err(e) => Step(p, Fail(e))
      case Ok(labelId) =>
        var newDesc := RenderDescription(a.description, env.foreign.md);
        var matched := CardsWithUrl(env.board.cards, env.canvasUrlFieldId, key);
        var s := UpdateExisting(env, p, matched, a, newDesc);
        if s.outcome.Fail? || |matched| > 0 then s
        else CreateNew(env, s.progress, a, key, labelId, newDesc)
  }

  /** The loop of `sync_mapping`: count the assignment, then sync it; the first error stops the loop. */
  function SyncAssignmentsSpec(env: Env, p: Progress, mapping: Mapping, assignments: seq<Assignment>): Step
    decreases |assignments|
  {
    if |assignments| == 0 then Step(p, Pass)
    else
      var a := assignments[0];
      var s := SyncAssignmentSpec(env, BumpAssignments(p), mapping, a);
      match s.outcome
      case Fail(e) => Step(s.progress, Fail(WrapErr(e, "Failed to sync assignment: " + Debug(a.name))))
      case Pass => SyncAssignmentsSpec(env, s.progress, mapping, assignments[1..])
  }

  /** `sync_mapping`: fetch the course's assignments, then sync each. */
  function SyncMappingSpec(env: Env, p: Progress, mapping: Mapping): Step
  {
    match GetAssignments(mapping.canvasCourseId, env.canvas(mapping.canvasCourseId))
    case Err(e) => Step(p, Fail(WrapErr(e, "Failed to fetch assignment list")))
    case Ok(assignments) => SyncAssignmentsSpec(env, p, mapping, assignments)
  }

  /** The loop of `main` over the configured mappings; the first error stops the run. */
  function SyncMappingsSpec(env: Env, p: Progress, mappings: seq<Mapping>): Step
    decreases |mappings|
  {
    if |mappings| == 0 then Step(p, Pass)
    else
      var m := mappings[0];
      var s := SyncMappingSpec(env, p, m);
      match s.outcome
      case Fail(e) => Step(s.progress, Fail(WrapErr(e, "Failed to sync mapping: " + Debug(m.trelloLabelName))))
      case Pass => SyncMappingsSpec(env, s.progress, mappings[1..])
  }

  /** `main` from the fetched board on: look up the tracking field and the list for new
      cards, then sync every mapping. */
  function RunSpec(board: Board, config: Config, foreign: Foreign,
                   trello: (nat, Call) -> Reply<Card>, canvas: string -> CourseReply): Step
  {
    var start := Progress(NoCounts, []);
    match FindCanvasUrlField(board)
    case Err(e) => Step(start, Fail(e))
    case Ok(fieldId) =>
      match FindList(board, config.trello.addToList)
      case Err(e) => Step(start, Fail(e))
      case Ok(listId) =>
        SyncMappingsSpec(Env(board, fieldId, listId, foreign, trello, canvas), start, config.mapping)
  }

  /** The run's shared context: the read-only snapshot and clients, and the counters it
      bumps and the calls it makes as it goes. */
  class Context {
    const board: Board
    const canvasUrlFieldId: string
    const newCardListId: string
    const config: Config
    const foreign: Foreign
    const trello: (nat, Call) -> Reply<Card>
    const canvas: string -> CourseReply

    var counts: Counts
    var sent: seq<Call>

    function Environment(): Env
    {
      Env(board, canvasUrlFieldId, newCardListId, foreign, trello, canvas)
    }

    function State(): Progress
      reads this
    {
      Progress(counts, sent)
    }

    constructor (board: Board, canvasUrlFieldId: string, newCardListId: string, config: Config,
                 foreign: Foreign, trello: (nat, Call) -> Reply<Card>, canvas: string -> CourseReply)
      ensures Environment() == Env(board, canvasUrlFieldId, newCardListId, foreign, trello, canvas)
      ensures this.config == config
      ensures State() == Progress(NoCounts, [])
    {
      this.board := board;
      this.canvasUrlFieldId := canvasUrlFieldId;
      this.newCardListId := newCardListId;
      this.config := config;
      this.foreign := foreign;
      this.trello := trello;
      this.canvas := canvas;
      counts := NoCounts;
      sent := [];
    }

    /** Makes one call to the board service. */
    method Send(call: Call) returns (reply: Reply<Card>)
      modifies this`sent
      ensures sent == old(sent) + [call]
      ensures reply == trello(|old(sent)|, call)
    {
      reply := trello(|sent|, call);
      sent := sent + [call];
    }

    /** The loop over the matched cards. */
    method UpdateMatched(matched: seq<Card>, a: Assignment, newDesc: string) returns (r: Outcome<Error>)
      modifies this
      ensures Step(State(), r) == UpdateExisting(Environment(), old(State()), matched, a, newDesc)
    {
      var submitted := foreign.submitted(a);
      var i := 0;
      while i < |matched|
        invariant 0 <= i <= |matched|
        invariant UpdateExisting(Environment(), State(), matched[i..], a, newDesc)
               == UpdateExisting(Environment(), old(State()), matched, a, newDesc)
      {
        var card := matched[i];
        assert matched[i..][1..] == matched[i + 1..];
        if !NeedsUpdate(Mismatches(card, a.dueAt, submitted, newDesc)) {
          counts := counts.(upToDate := counts.upToDate + 1);
          i := i + 1;
          continue;
        }
        var reply := Send(UpdateCall(Environment(), card, a, newDesc));
        var updated := UpdateCardOutcome(card.id, reply);
        if updated.Fail? {
          return Fail(WrapErr(updated.error, "Failed to update card"));
        }
        counts := counts.(updated := counts.updated + 1);
        i := i + 1;
      }
      return Pass;
    }

    /** The create branch: the new card, then its tracking field. */
    method CreateTracked(a: Assignment, key: string, labelId: string, newDesc: string) returns (r: Outcome<Error>)
      modifies this
      ensures Step(State(), r) == CreateNew(Environment(), old(State()), a, key, labelId, newDesc)
    {
      var fields := NewCardFields(a, newDesc, foreign.submitted(a), labelId);
      var reply := Send(Create(newCardListId, fields));
      var created := CreateCardOutcome(fields, reply);
      if created.Err? {
        return Fail(WrapErr(created.error, "Failed to create card"));
      }
      var newCard := created.value;
      reply := Send(SetCustomField(newCard.id, canvasUrlFieldId, Text(key)));
      var tracked := SetCustomFieldOutcome(newCard.id, reply);
      if tracked.Fail? {
        return Fail(WrapErr(tracked.error, "Failed to set Canvas URL custom field"));
      }
      counts := counts.(created := counts.created + 1);
      return Pass;
    }

    method SyncAssignment(mapping: Mapping, a: Assignment) returns (r: Outcome<Error>)
      modifies this
      ensures Step(State(), r) == SyncAssignmentSpec(Environment(), old(State()), mapping, a)
    {
      var url := CanvasUrl(a.htmlUrl);
      if url.Err? {
        return Fail(url.error);
      }
      var key := url.value;
      var foundLabel := FindLabel(board, mapping.trelloLabelName);
      if foundLabel.Err? {
        return Fail(foundLabel.error);
      }
      var labelId := foundLabel.value;
      var newDesc := RenderDescription(a.description, foreign.md);
      var matched := CardsWithUrl(board.cards, canvasUrlFieldId, key);
      r := UpdateMatched(matched, a, newDesc);
      if r.Fail? || |matched| > 0 {
        return;
      }
      r := CreateTracked(a, key, labelId, newDesc);
    }

    method SyncMapping(mapping: Mapping) returns (r: Outcome<Error>)
      modifies this
      ensures Step(State(), r) == SyncMappingSpec(Environment(), old(State()), mapping)
    {
      var fetched := GetAssignments(mapping.canvasCourseId, canvas(mapping.canvasCourseId));
      if fetched.Err? {
        return Fail(WrapErr(fetched.error, "Failed to fetch assignment list"));
      }
      var assignments := fetched.value;
      var i := 0;
      while i < |assignments|
        invariant 0 <= i <= |assignments|
        invariant SyncAssignmentsSpec(Environment(), State(), mapping, assignments[i..])
               == SyncAssignmentsSpec(Environment(), old(State()), mapping, assignments)
      {
        assert assignments[i..][1..] == assignments[i + 1..];
        ghost var before := State();
        counts := counts.(assignments := counts.assignments + 1);
        assert State() == BumpAssignments(before);
        var synced := SyncAssignment(mapping, assignments[i]);
        assert Step(State(), synced) == SyncAssignmentSpec(Environment(), BumpAssignments(before), mapping, assignments[i]);
        if synced.Fail? {
          return Fail(WrapErr(synced.error, "Failed to sync assignment: " + Debug(assignments[i].name)));
        }
        i := i + 1;
      }
      return Pass;
    }

    method SyncMappings() returns (r: Outcome<Error>)
      modifies this
      ensures Step(State(), r) == SyncMappingsSpec(Environment(), old(State()), config.mapping)
    {
      var mappings := config.mapping;
      var i := 0;
      while i < |mappings|
        invariant 0 <= i <= |mappings|
        invariant SyncMappingsSpec(Environment(), State(), mappings[i..])
               == SyncMappingsSpec(Environment(), old(State()), mappings)
      {
        assert mappings[i..][1..] == mappings[i + 1..];
        var synced := SyncMapping(mappings[i]);
        if synced.Fail? {
          return Fail(WrapErr(synced.error, "Failed to sync mapping: " + Debug(mappings[i].trelloLabelName)));
        }
        i := i + 1;
      }
      return Pass;
    }
  }

  /** `main` once the board is fetched: returns the summary counters, the calls made, and
      whether the run ended on an error. */
  method Run(board: Board, config: Config, foreign: Foreign,
             trello: (nat, Call) -> Reply<Card>, canvas: string -> CourseReply)
    returns (counts: Counts, sent: seq<Call>, r: Outcome<Error>)
    ensures Step(Progress(counts, sent), r) == RunSpec(board, config, foreign, trello, canvas)
  {
    var field := FindCanvasUrlField(board);
    if field.Err? {
      return NoCounts, [], Fail(field.error);
    }
    var list := FindList(board, config.trello.addToList);
    if list.Err? {
      return NoCounts, [], Fail(list.error);
    }
    var ctx := new Context(board, field.value, list.value, config, foreign, trello, canvas);
    r := ctx.SyncMappings();
    counts, sent := ctx.counts, ctx.sent;
  }
}
