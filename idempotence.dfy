/** Syncing an assignment again, over the board its own successful sync left behind, makes
    no call: the cards it updated are now up to date, and the card it created is found by its
    tracking key instead of being created again. This is a property of one assignment, not of
    a whole run: the run reads the board once, so two assignments of one run that share a
    tracking key each find no card and each create one. The board left behind is described
    under the assumption that the board service stores the fields each call carries. */
module Idempotence {
  import opened Wrappers
  import opened Time
  import opened Config
  import opened Trello
  import opened Canvas
  import opened Reconcile
  import opened Sync
  import opened SyncProperties

  /** A card after an update for the assignment went through. */
  function Stamp(card: Card, dueAt: Timestamp, submitted: bool, newDesc: string): Card
  {
    card.(due := Some(dueAt), dueComplete := submitted, desc := newDesc)
  }

  /** Whatever was stale about a card, once stamped it is up to date. */
  lemma StampedIsFresh(card: Card, dueAt: Timestamp, submitted: bool, newDesc: string)
    requires Header <= newDesc
    ensures !NeedsUpdate(Mismatches(Stamp(card, dueAt, submitted, newDesc), dueAt, submitted, newDesc))
  {
  }

  /** A card on the board after the run: stale cards tracked under the key were updated. */
  function Refresh(env: Env, key: string, a: Assignment, newDesc: string, card: Card): Card
  {
    if TrackedUrl(card, env.canvasUrlFieldId) == Some(key) && Stale(env, card, a, newDesc)
    then Stamp(card, a.dueAt, env.foreign.submitted(a), newDesc)
    else card
  }

  function RefreshAll(env: Env, key: string, a: Assignment, newDesc: string, cards: seq<Card>): (r: seq<Card>)
    ensures |r| == |cards|
    ensures forall i | 0 <= i < |cards| :: r[i] == Refresh(env, key, a, newDesc, cards[i])
    decreases |cards|
  {
    if |cards| == 0 then []
    else [Refresh(env, key, a, newDesc, cards[0])] + RefreshAll(env, key, a, newDesc, cards[1..])
  }

  /** Updating a card does not touch its custom-field items, so the same cards match. */
  lemma {:induction false} MatchesAfterRefresh(env: Env, key: string, a: Assignment, newDesc: string, cards: seq<Card>)
    ensures CardsWithUrl(RefreshAll(env, key, a, newDesc, cards), env.canvasUrlFieldId, key)
         == RefreshAll(env, key, a, newDesc, CardsWithUrl(cards, env.canvasUrlFieldId, key))
    decreases |cards|
  {
    var fieldId := env.canvasUrlFieldId;
    if |cards| > 0 {
      var c, rest := cards[0], cards[1..];
      var c' := Refresh(env, key, a, newDesc, c);
      assert cards == [c] + rest;
      MatchesInBoardOrder([c], rest, c, fieldId, key);
      MatchesInBoardOrder([c'], RefreshAll(env, key, a, newDesc, rest), c', fieldId, key);
      MatchesAfterRefresh(env, key, a, newDesc, rest);
      assert c'.customFieldItems == c.customFieldItems;
      RefreshConcat(env, key, a, newDesc, CardsWithUrl([c], fieldId, key), CardsWithUrl(rest, fieldId, key));
    }
  }

  lemma {:induction false} RefreshConcat(env: Env, key: string, a: Assignment, newDesc: string, xs: seq<Card>, ys: seq<Card>)
    ensures RefreshAll(env, key, a, newDesc, xs + ys)
         == RefreshAll(env, key, a, newDesc, xs) + RefreshAll(env, key, a, newDesc, ys)
    decreases |xs|
  {
    if |xs| == 0 {
      assert xs + ys == ys;
    } else {
      assert (xs + ys)[1..] == xs[1..] + ys;
      RefreshConcat(env, key, a, newDesc, xs[1..], ys);
    }
  }

  /** Cards that are all up to date make the update loop count each of them and send nothing. */
  lemma {:induction false} FreshCardsSendNothing(env: Env, p: Progress, cards: seq<Card>, a: Assignment, newDesc: string)
    requires forall i | 0 <= i < |cards| :: !Stale(env, cards[i], a, newDesc)
    ensures UpdateExisting(env, p, cards, a, newDesc)
         == Step(p.(counts := p.counts.(upToDate := p.counts.upToDate + |cards|)), Pass)
    decreases |cards|
  {
    if |cards| > 0 {
      FreshCardsSendNothing(env, BumpUpToDate(p), cards[1..], a, newDesc);
    }
  }

  /** An assignment whose key and label are found, and whose matched cards are all up to
      date, is synced without a call: each matched card is counted up to date. */
  lemma AllFreshSendsNothing(env: Env, p: Progress, mapping: Mapping, a: Assignment)
    requires CanvasUrl(a.htmlUrl).Ok?
    requires FindLabel(env.board, mapping.trelloLabelName).Ok?
    requires var matched := CardsWithUrl(env.board.cards, env.canvasUrlFieldId, CanvasUrl(a.htmlUrl).value);
      && matched != []
      && forall i | 0 <= i < |matched| :: !Stale(env, matched[i], a, RenderDescription(a.description, env.foreign.md))
    ensures SyncAssignmentSpec(env, p, mapping, a) == Step(p.(counts := p.counts.(upToDate :=
      p.counts.upToDate + |CardsWithUrl(env.board.cards, env.canvasUrlFieldId, CanvasUrl(a.htmlUrl).value)|)), Pass)
  {
    var matched := CardsWithUrl(env.board.cards, env.canvasUrlFieldId, CanvasUrl(a.htmlUrl).value);
    AssignmentBranches(env, p, mapping, a);
    FreshCardsSendNothing(env, p, matched, a, RenderDescription(a.description, env.foreign.md));
  }

  /** Every refreshed card is up to date. */
  lemma {:induction false} RefreshedAreFresh(env: Env, key: string, a: Assignment, newDesc: string, cards: seq<Card>)
    requires Header <= newDesc
    requires forall i | 0 <= i < |cards| :: TrackedUrl(cards[i], env.canvasUrlFieldId) == Some(key)
    ensures var r := RefreshAll(env, key, a, newDesc, cards);
      forall i | 0 <= i < |r| :: !Stale(env, r[i], a, newDesc)
    decreases |cards|
  {
    if |cards| > 0 {
      StampedIsFresh(cards[0], a.dueAt, env.foreign.submitted(a), newDesc);
      RefreshedAreFresh(env, key, a, newDesc, cards[1..]);
      var r := RefreshAll(env, key, a, newDesc, cards);
      forall i | 0 <= i < |r| ensures !Stale(env, r[i], a, newDesc) {
        if i == 0 {
          assert r[0] == Refresh(env, key, a, newDesc, cards[0]);
        } else {
          assert r[i] == RefreshAll(env, key, a, newDesc, cards[1..])[i - 1];
        }
      }
    }
  }

  /** The board as the service holds it after the update loop went through. */
  function AfterUpdates(env: Env, key: string, a: Assignment, newDesc: string): Env
  {
    env.(board := env.board.(cards := RefreshAll(env, key, a, newDesc, env.board.cards)))
  }

  /** Once the matched cards were brought up to date, syncing the same assignment again sends
      no call and counts every matched card as up to date. */
  lemma SecondRunAfterUpdates(env: Env, p: Progress, mapping: Mapping, a: Assignment)
    requires CanvasUrl(a.htmlUrl).Ok?
    requires FindLabel(env.board, mapping.trelloLabelName).Ok?
    requires CardsWithUrl(env.board.cards, env.canvasUrlFieldId, CanvasUrl(a.htmlUrl).value) != []
    ensures var key := CanvasUrl(a.htmlUrl).value;
      var newDesc := RenderDescription(a.description, env.foreign.md);
      var matched := CardsWithUrl(env.board.cards, env.canvasUrlFieldId, key);
      SyncAssignmentSpec(AfterUpdates(env, key, a, newDesc), p, mapping, a)
        == Step(p.(counts := p.counts.(upToDate := p.counts.upToDate + |matched|)), Pass)
  {
    var key := CanvasUrl(a.htmlUrl).value;
    var newDesc := RenderDescription(a.description, env.foreign.md);
    var env' := AfterUpdates(env, key, a, newDesc);
    var matched := CardsWithUrl(env.board.cards, env.canvasUrlFieldId, key);
    MatchesAfterRefresh(env, key, a, newDesc, env.board.cards);
    var matched' := CardsWithUrl(env'.board.cards, env.canvasUrlFieldId, key);
    assert matched' == RefreshAll(env, key, a, newDesc, matched);
    forall i | 0 <= i < |matched| ensures TrackedUrl(matched[i], env.canvasUrlFieldId) == Some(key) {
      assert matched[i] in matched;
    }
    RefreshedAreFresh(env, key, a, newDesc, matched);
    AllFreshSendsNothing(env', p, mapping, a);
  }

  /** The card the service holds after the create call and the tracking call went through:
      the created card with the fields sent and a single item holding the key. */
  function Stored(created: Card, fields: CreateCard, fieldId: string, key: string, itemId: string): Card
  {
    created.(name := fields.name, desc := fields.desc, due := Some(fields.due),
             dueComplete := fields.dueComplete,
             customFieldItems := [CustomFieldItem(itemId, Text(key), fieldId)])
  }

  /** The stored card carries the key in its only item, and the fields it was created with
      are those the assignment calls for. */
  lemma StoredIsTrackedAndFresh(env: Env, a: Assignment, newDesc: string, labelId: string,
                                key: string, created: Card, itemId: string)
    requires Header <= newDesc
    ensures var card := Stored(created, NewCardFields(a, newDesc, env.foreign.submitted(a), labelId),
                               env.canvasUrlFieldId, key, itemId);
      TrackedUrl(card, env.canvasUrlFieldId) == Some(key) && !Stale(env, card, a, newDesc)
  {
    var card := Stored(created, NewCardFields(a, newDesc, env.foreign.submitted(a), labelId),
                       env.canvasUrlFieldId, key, itemId);
    TrackedByFirstItem(card, env.canvasUrlFieldId, key, [], card.customFieldItems[0], []);
    assert card == Stamp(card, a.dueAt, env.foreign.submitted(a), newDesc);
    StampedIsFresh(card, a.dueAt, env.foreign.submitted(a), newDesc);
  }

  /** The board as the service holds it after the assignment's card was created. */
  function AfterCreate(env: Env, card: Card): Env
  {
    env.(board := env.board.(cards := env.board.cards + [card]))
  }

  /** A card tracked under the key, added to cards of which none matched, is the only match. */
  lemma OnlyMatchAfterCreate(cards: seq<Card>, card: Card, fieldId: string, key: string)
    requires CardsWithUrl(cards, fieldId, key) == []
    requires TrackedUrl(card, fieldId) == Some(key)
    ensures CardsWithUrl(cards + [card], fieldId, key) == [card]
  {
    MatchesInBoardOrder(cards, [card], card, fieldId, key);
  }

  /** A card tracked under the assignment's key and up to date, added to a board on which
      nothing matched, is the only match of the next sync, which sends no call. */
  lemma SecondRunWithTrackedCard(env: Env, p: Progress, mapping: Mapping, a: Assignment, card: Card)
    requires CanvasUrl(a.htmlUrl).Ok?
    requires FindLabel(env.board, mapping.trelloLabelName).Ok?
    requires CardsWithUrl(env.board.cards, env.canvasUrlFieldId, CanvasUrl(a.htmlUrl).value) == []
    requires TrackedUrl(card, env.canvasUrlFieldId) == Some(CanvasUrl(a.htmlUrl).value)
    requires !Stale(env, card, a, RenderDescription(a.description, env.foreign.md))
    ensures SyncAssignmentSpec(AfterCreate(env, card), p, mapping, a)
         == Step(p.(counts := p.counts.(upToDate := p.counts.upToDate + 1)), Pass)
  {
    var env' := AfterCreate(env, card);
    OnlyMatchAfterCreate(env.board.cards, card, env.canvasUrlFieldId, CanvasUrl(a.htmlUrl).value);
    assert !Stale(env', [card][0], a, RenderDescription(a.description, env'.foreign.md));
    AllFreshSendsNothing(env', p, mapping, a);
  }

  /** Once the card for an untracked assignment was created and tagged with its key, syncing
      the same assignment again creates no second card: it sends no call and counts the new
      card as up to date. */
  lemma SecondRunAfterCreate(env: Env, p: Progress, mapping: Mapping, a: Assignment, created: Card, itemId: string)
    requires CanvasUrl(a.htmlUrl).Ok?
    requires FindLabel(env.board, mapping.trelloLabelName).Ok?
    requires CardsWithUrl(env.board.cards, env.canvasUrlFieldId, CanvasUrl(a.htmlUrl).value) == []
    ensures var key := CanvasUrl(a.htmlUrl).value;
      var newDesc := RenderDescription(a.description, env.foreign.md);
      var fields := NewCardFields(a, newDesc, env.foreign.submitted(a), FindLabel(env.board, mapping.trelloLabelName).value);
      var env' := AfterCreate(env, Stored(created, fields, env.canvasUrlFieldId, key, itemId));
      SyncAssignmentSpec(env', p, mapping, a)
        == Step(p.(counts := p.counts.(upToDate := p.counts.upToDate + 1)), Pass)
  {
    var key := CanvasUrl(a.htmlUrl).value;
    var newDesc := RenderDescription(a.description, env.foreign.md);
    var labelId := FindLabel(env.board, mapping.trelloLabelName).value;
    StoredIsTrackedAndFresh(env, a, newDesc, labelId, key, created, itemId);
    SecondRunWithTrackedCard(env, p, mapping, a,
      Stored(created, NewCardFields(a, newDesc, env.foreign.submitted(a), labelId), env.canvasUrlFieldId, key, itemId));
  }
}
