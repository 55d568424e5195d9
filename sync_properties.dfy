/** What the run promises: the calls it makes for each assignment, the order in which it
    works and stops, and what its counters account for. */
module SyncProperties {
  import opened Wrappers
  import opened Urls
  import opened Config
  import opened Trello
  import opened Canvas
  import opened Reconcile
  import opened Sync

  /** The calls the matched cards call for: one update per stale card, in board order. */
  function PlannedUpdates(env: Env, cards: seq<Card>, a: Assignment, newDesc: string): (r: seq<Call>)
    ensures |r| <= |cards|
    ensures forall i | 0 <= i < |r| :: r[i].Update?
    decreases |cards|
  {
    if |cards| == 0 then []
    else
      (if Stale(env, cards[0], a, newDesc) then [UpdateCall(env, cards[0], a, newDesc)] else [])
      + PlannedUpdates(env, cards[1..], a, newDesc)
  }

  /** The loop over N matched cards takes N separate decisions: it sends the planned updates
      in order and stops at the first that fails; when it completes, every stale card bumped
      the updated counter and every other the up-to-date counter. */
  lemma {:induction false} UpdatesFollowPlan(env: Env, p: Progress, cards: seq<Card>, a: Assignment, newDesc: string)
    ensures var s := UpdateExisting(env, p, cards, a, newDesc);
      var plan := PlannedUpdates(env, cards, a, newDesc);
      && s.progress.counts.assignments == p.counts.assignments
      && s.progress.counts.created == p.counts.created
      && p.sent <= s.progress.sent
      && s.progress.sent <= p.sent + plan
      && (s.outcome.Pass? ==>
            && s.progress.sent == p.sent + plan
            && s.progress.counts.updated == p.counts.updated + |plan|
            && s.progress.counts.upToDate == p.counts.upToDate + (|cards| - |plan|))
      && (s.outcome.Fail? ==> |p.sent| < |s.progress.sent|)
    decreases |cards|
  {
    if |cards| > 0 {
      var rest := cards[1..];
      if !Stale(env, cards[0], a, newDesc) {
        UpdatesFollowPlan(env, BumpUpToDate(p), rest, a, newDesc);
      } else {
        var call := UpdateCall(env, cards[0], a, newDesc);
        UpdatesFollowPlan(env, BumpUpdated(Sent(p, call)), rest, a, newDesc);
        assert p.sent + [call] + PlannedUpdates(env, rest, a, newDesc)
            == p.sent + PlannedUpdates(env, cards, a, newDesc);
      }
    }
  }

  /** Every call in `calls`, made as call number `from` onwards, got a response. */
  predicate AllDelivered(env: Env, from: nat, calls: seq<Call>)
  {
    forall i | 0 <= i < |calls| :: env.trello(from + i, calls[i]).Received?
  }

  /** The loop over the matched cards fails only on an update that could not be sent, and
      that update is the last call it made. */
  lemma {:induction false} FailsOnSendFailure(env: Env, p: Progress, cards: seq<Card>, a: Assignment, newDesc: string)
    ensures var s := UpdateExisting(env, p, cards, a, newDesc);
      var sent := s.progress.sent;
      s.outcome.Fail? ==> |p.sent| < |sent| && env.trello(|sent| - 1, sent[|sent| - 1]).SendFailed?
    decreases |cards|
  {
    if |cards| > 0 {
      var rest := cards[1..];
      if !Stale(env, cards[0], a, newDesc) {
        FailsOnSendFailure(env, BumpUpToDate(p), rest, a, newDesc);
      } else {
        var call := UpdateCall(env, cards[0], a, newDesc);
        if env.trello(|p.sent|, call).Received? {
          var q := BumpUpdated(Sent(p, call));
          FailsOnSendFailure(env, q, rest, a, newDesc);
          assert UpdateExisting(env, p, cards, a, newDesc) == UpdateExisting(env, q, rest, a, newDesc);
        }
      }
    }
  }

  /** Calls number `lo` up to `hi` of `sent` got a response. */
  predicate DeliveredBetween(env: Env, sent: seq<Call>, lo: nat, hi: nat)
  {
    forall i | lo <= i < hi && i < |sent| :: env.trello(i, sent[i]).Received?
  }

  /** Every update the loop sent before it stopped got a response: all of them when it
      completed, all but the last when it failed. */
  lemma {:induction false} DeliveredBeforeStop(env: Env, p: Progress, cards: seq<Card>, a: Assignment, newDesc: string)
    ensures p.sent <= UpdateExisting(env, p, cards, a, newDesc).progress.sent
    ensures var s := UpdateExisting(env, p, cards, a, newDesc);
      var sent := s.progress.sent;
      && (s.outcome.Pass? ==> DeliveredBetween(env, sent, |p.sent|, |sent|))
      && (s.outcome.Fail? ==> |p.sent| < |sent| && DeliveredBetween(env, sent, |p.sent|, |sent| - 1))
    decreases |cards|
  {
    if |cards| > 0 {
      var rest := cards[1..];
      if !Stale(env, cards[0], a, newDesc) {
        DeliveredBeforeStop(env, BumpUpToDate(p), rest, a, newDesc);
      } else {
        var call := UpdateCall(env, cards[0], a, newDesc);
        if env.trello(|p.sent|, call).Received? {
          var q := BumpUpdated(Sent(p, call));
          DeliveredBeforeStop(env, q, rest, a, newDesc);
          var s := UpdateExisting(env, q, rest, a, newDesc);
          var sent := s.progress.sent;
          assert UpdateExisting(env, p, cards, a, newDesc) == s;
          assert sent[|p.sent|] == q.sent[|p.sent|] == call;
        }
      }
    }
  }

  /** When every planned update gets a response, the loop completes. */
  lemma {:induction false} DeliveredPlanPasses(env: Env, p: Progress, cards: seq<Card>, a: Assignment, newDesc: string)
    requires AllDelivered(env, |p.sent|, PlannedUpdates(env, cards, a, newDesc))
    ensures UpdateExisting(env, p, cards, a, newDesc).outcome.Pass?
    decreases |cards|
  {
    if |cards| > 0 {
      var rest := cards[1..];
      var planRest := PlannedUpdates(env, rest, a, newDesc);
      if !Stale(env, cards[0], a, newDesc) {
        assert PlannedUpdates(env, cards, a, newDesc) == [] + planRest == planRest;
        DeliveredPlanPasses(env, BumpUpToDate(p), rest, a, newDesc);
      } else {
        var call := UpdateCall(env, cards[0], a, newDesc);
        var plan := PlannedUpdates(env, cards, a, newDesc);
        assert plan == [call] + planRest;
        assert plan[0] == call;
        var q := BumpUpdated(Sent(p, call));
        forall i | 0 <= i < |planRest|
          ensures env.trello(|q.sent| + i, planRest[i]).Received?
        {
          assert planRest[i] == plan[i + 1];
        }
        DeliveredPlanPasses(env, q, rest, a, newDesc);
      }
    }
  }

  /** An assignment whose key cannot be formed, or whose label is not on the board, stops
      the run before any call is made. */
  lemma NoCallBeforeLookups(env: Env, p: Progress, mapping: Mapping, a: Assignment)
    requires CanvasUrl(a.htmlUrl).Err? || FindLabel(env.board, mapping.trelloLabelName).Err?
    ensures var s := SyncAssignmentSpec(env, p, mapping, a);
      s.progress == p && s.outcome.Fail?
  {
  }

  /** Once the key and the label are found, the assignment is synced by the update loop
      over the matched cards, or by the create branch when nothing matched. */
  lemma AssignmentBranches(env: Env, p: Progress, mapping: Mapping, a: Assignment)
    requires CanvasUrl(a.htmlUrl).Ok?
    requires FindLabel(env.board, mapping.trelloLabelName).Ok?
    ensures var key := CanvasUrl(a.htmlUrl).value;
      var newDesc := RenderDescription(a.description, env.foreign.md);
      var matched := CardsWithUrl(env.board.cards, env.canvasUrlFieldId, key);
      && (matched != [] ==> SyncAssignmentSpec(env, p, mapping, a) == UpdateExisting(env, p, matched, a, newDesc))
      && (matched == [] ==>
            SyncAssignmentSpec(env, p, mapping, a)
              == CreateNew(env, p, a, key, FindLabel(env.board, mapping.trelloLabelName).value, newDesc))
  {
  }

  /** A card is created exactly when no card on the board carries the assignment's key. */
  lemma CreateIffNoMatch(env: Env, p: Progress, mapping: Mapping, a: Assignment)
    requires CanvasUrl(a.htmlUrl).Ok?
    requires FindLabel(env.board, mapping.trelloLabelName).Ok?
    ensures var s := SyncAssignmentSpec(env, p, mapping, a);
      && p.sent <= s.progress.sent
      && ((exists i | |p.sent| <= i < |s.progress.sent| :: s.progress.sent[i].Create?) <==>
          CardsWithUrl(env.board.cards, env.canvasUrlFieldId, CanvasUrl(a.htmlUrl).value) == [])
  {
    var key := CanvasUrl(a.htmlUrl).value;
    var newDesc := RenderDescription(a.description, env.foreign.md);
    var matched := CardsWithUrl(env.board.cards, env.canvasUrlFieldId, key);
    var s := SyncAssignmentSpec(env, p, mapping, a);
    AssignmentBranches(env, p, mapping, a);
    if matched == [] {
      var c := CreateNew(env, p, a, key, FindLabel(env.board, mapping.trelloLabelName).value, newDesc);
      assert c.progress.sent[|p.sent|].Create?;
    } else {
      UpdatesFollowPlan(env, p, matched, a, newDesc);
      var plan := PlannedUpdates(env, matched, a, newDesc);
      forall i | |p.sent| <= i < |s.progress.sent|
        ensures !s.progress.sent[i].Create?
      {
        assert s.progress.sent[i] == (p.sent + plan)[i] == plan[i - |p.sent|];
      }
    }
  }

  /** With no card carrying the key, the run sends one create call with the assignment's
      fields, then (once the new card comes back) one call that sets that card's tracking
      field to the key; only when both go through is the created counter bumped, and nothing
      else changes. */
  lemma CreateThenTrack(env: Env, p: Progress, mapping: Mapping, a: Assignment)
    requires CanvasUrl(a.htmlUrl).Ok?
    requires FindLabel(env.board, mapping.trelloLabelName).Ok?
    requires CardsWithUrl(env.board.cards, env.canvasUrlFieldId, CanvasUrl(a.htmlUrl).value) == []
    ensures var key := CanvasUrl(a.htmlUrl).value;
      var newDesc := RenderDescription(a.description, env.foreign.md);
      var fields := NewCardFields(a, newDesc, env.foreign.submitted(a), FindLabel(env.board, mapping.trelloLabelName).value);
      var create := Create(env.newCardListId, fields);
      var reply := Answer(env, p, create);
      var s := SyncAssignmentSpec(env, p, mapping, a);
      && |s.progress.sent| > |p.sent|
      && s.progress.sent[..|p.sent| + 1] == p.sent + [create]
      && (s.outcome.Pass? ==>
            && reply.Received? && reply.body.Ok?
            && var track := SetCustomField(reply.body.value.id, env.canvasUrlFieldId, Text(key));
               && Answer(env, Sent(p, create), track).Received?
               && s.progress == Progress(p.counts.(created := p.counts.created + 1), p.sent + [create, track]))
      && (reply.Received? && reply.body.Ok? &&
          Answer(env, Sent(p, create), SetCustomField(reply.body.value.id, env.canvasUrlFieldId, Text(key))).Received?
          ==> s.outcome.Pass?)
  {
    AssignmentBranches(env, p, mapping, a);
    var key := CanvasUrl(a.htmlUrl).value;
    var newDesc := RenderDescription(a.description, env.foreign.md);
    var c := CreateNew(env, p, a, key, FindLabel(env.board, mapping.trelloLabelName).value, newDesc);
    assert c.progress.sent[..|p.sent| + 1] == p.sent + [c.progress.sent[|p.sent|]];
  }

  /** What a stage adds to the counters accounts for what it did: every create made two
      calls, every update one, and every assignment counted was reconciled at least once. */
  predicate Accounted(p: Progress, q: Progress)
  {
    var c, d := p.counts, q.counts;
    && c.assignments <= d.assignments && c.created <= d.created
    && c.updated <= d.updated && c.upToDate <= d.upToDate
    && p.sent <= q.sent
    && |q.sent| - |p.sent| == 2 * (d.created - c.created) + (d.updated - c.updated)
    && (d.created + d.updated + d.upToDate) - (c.created + c.updated + c.upToDate)
       >= d.assignments - c.assignments
  }

  /** How many decisions (create, update or up to date) a stage took. */
  function Decisions(p: Progress, q: Progress): int
  {
    (q.counts.created + q.counts.updated + q.counts.upToDate)
    - (p.counts.created + p.counts.updated + p.counts.upToDate)
  }

  /** The update loop in the terms of `Accounted`. */
  lemma UpdatesAccounted(env: Env, p: Progress, cards: seq<Card>, a: Assignment, newDesc: string)
    ensures var s := UpdateExisting(env, p, cards, a, newDesc);
      && s.progress.counts.assignments == p.counts.assignments
      && s.progress.counts.created == p.counts.created
      && p.counts.updated <= s.progress.counts.updated
      && p.counts.upToDate <= s.progress.counts.upToDate
      && p.sent <= s.progress.sent
      && (s.outcome.Pass? ==> Accounted(p, s.progress) && Decisions(p, s.progress) == |cards|)
  {
    UpdatesFollowPlan(env, p, cards, a, newDesc);
    UpdateCountersGrow(env, p, cards, a, newDesc);
  }

  lemma {:induction false} UpdateCountersGrow(env: Env, p: Progress, cards: seq<Card>, a: Assignment, newDesc: string)
    ensures var s := UpdateExisting(env, p, cards, a, newDesc);
      p.counts.updated <= s.progress.counts.updated && p.counts.upToDate <= s.progress.counts.upToDate
    decreases |cards|
  {
    if |cards| > 0 {
      if !Stale(env, cards[0], a, newDesc) {
        UpdateCountersGrow(env, BumpUpToDate(p), cards[1..], a, newDesc);
      } else {
        UpdateCountersGrow(env, BumpUpdated(Sent(p, UpdateCall(env, cards[0], a, newDesc))), cards[1..], a, newDesc);
      }
    }
  }

  /** The create branch makes at most two calls, and bumps the created counter only when it
      made both. */
  lemma CreateAccounted(env: Env, p: Progress, a: Assignment, key: string, labelId: string, newDesc: string)
    ensures var s := CreateNew(env, p, a, key, labelId, newDesc);
      && s.progress.counts.assignments == p.counts.assignments
      && s.progress.counts.updated == p.counts.updated
      && s.progress.counts.upToDate == p.counts.upToDate
      && p.sent <= s.progress.sent
      && (s.outcome.Pass? <==>
            && s.progress.counts.created == p.counts.created + 1
            && |s.progress.sent| == |p.sent| + 2)
      && (s.outcome.Fail? ==> s.progress.counts.created == p.counts.created)
  {
  }

  /** Syncing one assignment never touches the assignment counter; when it succeeds it took
      at least one decision and its calls are accounted for. */
  lemma AssignmentAccounted(env: Env, p: Progress, mapping: Mapping, a: Assignment)
    ensures var s := SyncAssignmentSpec(env, p, mapping, a);
      && s.progress.counts.assignments == p.counts.assignments
      && p.counts.created <= s.progress.counts.created
      && p.counts.updated <= s.progress.counts.updated
      && p.counts.upToDate <= s.progress.counts.upToDate
      && p.sent <= s.progress.sent
      && (s.outcome.Pass? ==> Accounted(p, s.progress) && Decisions(p, s.progress) >= 1)
  {
    match CanvasUrl(a.htmlUrl)
    case Err(_) =>
    case Ok(key) =>
      match FindLabel(env.board, mapping.trelloLabelName)
      case Err(_) =>
      case Ok(labelId) =>
        var newDesc := RenderDescription(a.description, env.foreign.md);
        var matched := CardsWithUrl(env.board.cards, env.canvasUrlFieldId, key);
        var s := UpdateExisting(env, p, matched, a, newDesc);
        assert SyncAssignmentSpec(env, p, mapping, a)
            == if s.outcome.Fail? || |matched| > 0 then s else CreateNew(env, s.progress, a, key, labelId, newDesc);
        UpdatesAccounted(env, p, matched, a, newDesc);
        if s.outcome.Pass? && |matched| == 0 {
          assert s.progress == p;
          CreateAccounted(env, p, a, key, labelId, newDesc);
        }
  }

  /** The assignments of a mapping are counted one by one before each is synced: a complete
      pass counts all of them, a failed one counts at least one and at most all of them. */
  lemma {:induction false} AssignmentsAccounted(env: Env, p: Progress, mapping: Mapping, assignments: seq<Assignment>)
    ensures var s := SyncAssignmentsSpec(env, p, mapping, assignments);
      && p.counts.assignments <= s.progress.counts.assignments <= p.counts.assignments + |assignments|
      && p.sent <= s.progress.sent
      && (s.outcome.Pass? ==>
            Accounted(p, s.progress) && s.progress.counts.assignments == p.counts.assignments + |assignments|)
      && (s.outcome.Fail? ==> p.counts.assignments < s.progress.counts.assignments)
    decreases |assignments|
  {
    if |assignments| > 0 {
      var p1 := BumpAssignments(p);
      var s1 := SyncAssignmentSpec(env, p1, mapping, assignments[0]);
      AssignmentAccounted(env, p1, mapping, assignments[0]);
      if s1.outcome.Pass? {
        AssignmentsAccounted(env, s1.progress, mapping, assignments[1..]);
      }
    }
  }

  /** Assignments are synced in order, and the first error ends the loop: syncing `xs + ys`
      is syncing `xs` and, only if that went through, `ys` after it. */
  lemma {:induction false} AssignmentsInOrder(env: Env, p: Progress, mapping: Mapping, xs: seq<Assignment>, ys: seq<Assignment>)
    ensures SyncAssignmentsSpec(env, p, mapping, xs + ys) ==
      var s := SyncAssignmentsSpec(env, p, mapping, xs);
      if s.outcome.Fail? then s else SyncAssignmentsSpec(env, s.progress, mapping, ys)
    decreases |xs|
  {
    if |xs| == 0 {
      assert xs + ys == ys;
    } else {
      assert (xs + ys)[0] == xs[0];
      assert (xs + ys)[1..] == xs[1..] + ys;
      var s1 := SyncAssignmentSpec(env, BumpAssignments(p), mapping, xs[0]);
      if s1.outcome.Pass? {
        AssignmentsInOrder(env, s1.progress, mapping, xs[1..], ys);
      }
    }
  }

  lemma MappingAccounted(env: Env, p: Progress, mapping: Mapping)
    ensures var s := SyncMappingSpec(env, p, mapping);
      && p.sent <= s.progress.sent
      && (s.outcome.Pass? ==> Accounted(p, s.progress))
  {
    match GetAssignments(mapping.canvasCourseId, env.canvas(mapping.canvasCourseId))
    case Err(_) =>
    case Ok(assignments) => AssignmentsAccounted(env, p, mapping, assignments);
  }

  lemma {:induction false} MappingsAccounted(env: Env, p: Progress, mappings: seq<Mapping>)
    ensures var s := SyncMappingsSpec(env, p, mappings);
      s.outcome.Pass? ==> Accounted(p, s.progress)
    decreases |mappings|
  {
    if |mappings| > 0 {
      var s1 := SyncMappingSpec(env, p, mappings[0]);
      MappingAccounted(env, p, mappings[0]);
      if s1.outcome.Pass? {
        MappingsAccounted(env, s1.progress, mappings[1..]);
      }
    }
  }

  /** Mappings are synced in order, and an error in one means no later mapping is touched. */
  lemma {:induction false} MappingsInOrder(env: Env, p: Progress, xs: seq<Mapping>, ys: seq<Mapping>)
    ensures SyncMappingsSpec(env, p, xs + ys) ==
      var s := SyncMappingsSpec(env, p, xs);
      if s.outcome.Fail? then s else SyncMappingsSpec(env, s.progress, ys)
    decreases |xs|
  {
    if |xs| == 0 {
      assert xs + ys == ys;
    } else {
      assert (xs + ys)[0] == xs[0];
      assert (xs + ys)[1..] == xs[1..] + ys;
      var s1 := SyncMappingSpec(env, p, xs[0]);
      if s1.outcome.Pass? {
        MappingsInOrder(env, s1.progress, xs[1..], ys);
      }
    }
  }

  /** The summary of a run that ends without error: the board service got two calls per
      created card and one per updated card, and every assignment counted led to at least
      one decision. */
  lemma RunSummary(board: Board, config: Config, foreign: Foreign,
                   trello: (nat, Call) -> Reply<Card>, canvas: string -> CourseReply)
    ensures var s := RunSpec(board, config, foreign, trello, canvas);
      var c := s.progress.counts;
      s.outcome.Pass? ==>
        && |s.progress.sent| == 2 * c.created + c.updated
        && c.created + c.updated + c.upToDate >= c.assignments
  {
    var start := Progress(NoCounts, []);
    match FindCanvasUrlField(board)
    case Err(_) =>
    case Ok(fieldId) =>
      match FindList(board, config.trello.addToList)
      case Err(_) =>
      case Ok(listId) =>
        MappingsAccounted(Env(board, fieldId, listId, foreign, trello, canvas), start, config.mapping);
  }

  /** A board without the tracking field, or without the list for new cards, stops the run
      before any mapping is synced. */
  lemma RunNeedsFieldAndList(board: Board, config: Config, foreign: Foreign,
                             trello: (nat, Call) -> Reply<Card>, canvas: string -> CourseReply)
    requires FindCanvasUrlField(board).Err? || FindList(board, config.trello.addToList).Err?
    ensures RunSpec(board, config, foreign, trello, canvas).progress == Progress(NoCounts, [])
    ensures RunSpec(board, config, foreign, trello, canvas).outcome.Fail?
  {
  }
}
