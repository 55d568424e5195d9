/** The decisions `sync_assignment` takes for one assignment against the board snapshot:
    the tracking key, the name lookups, the description, the matching cards, and whether
    a matching card is stale. */
module Reconcile {
  import opened Wrappers
  import opened Strings
  import opened Seqs
  import opened Time
  import opened Urls
  import opened Trello
  import opened Canvas

  /** The name of the custom field that holds a card's tracking key. */
  const CanvasUrlFieldName: string := "Canvas URL"

  /** The marker that opens every description this program writes. The source's literal is
      the UTF-8 encoding of an emoji read back as Windows-1252, followed by the program's name. */
  const Header: string := "\U{00F0}\U{0178}\U{201D}\U{201E} Canvas Trello Sync"

  /** What stands between the header and the converted body. */
  const Rule: string := "\n\n---\n\n"

  const UnwrapPanic: string := "called `Result::unwrap()` on an `Err` value: ()"

  /** The functions the reconciliation uses but does not define: the HTML-to-Markdown
      converter, the RFC 3339 formatter, and whether an assignment counts as submitted. */
  datatype Foreign = Foreign(
    md: string -> string,
    rfc3339: Timestamp -> string,
    submitted: Assignment -> bool)

  function NameIs(name: string): Named -> bool
  {
    (x: Named) => x.name == name
  }

  /** Looks up an entity by exact name: the id of the first entity so named, or the report
      `notFound` when there is none. */
  function LookupId(xs: seq<Named>, name: string, notFound: string): (r: Result<string, Error>)
    ensures r.Err? <==> forall i | 0 <= i < |xs| :: xs[i].name != name
    ensures r.Err? ==> r.error == Root(notFound)
    ensures r.Ok? ==> exists k | 0 <= k < |xs| ::
      xs[k] == Named(r.value, name) && forall j | 0 <= j < k :: xs[j].name != name
  {
    var k := Find(xs, NameIs(name));
    if k < |xs| then Ok(xs[k].id) else Err(Root(notFound))
  }

  /** When several entities share the wanted name, the earliest one wins. */
  lemma FirstNameWins(xs: seq<Named>, name: string, notFound: string, k: nat)
    requires k < |xs| && xs[k].name == name
    requires forall j | 0 <= j < k :: xs[j].name != name
    ensures LookupId(xs, name, notFound) == Ok(xs[k].id)
  {
    FindFirst(xs, NameIs(name), k);
  }

  /** The tracking field's id; a board without a field of that name is an error. */
  function FindCanvasUrlField(board: Board): (r: Result<string, Error>)
    ensures r.Err? <==> forall i | 0 <= i < |board.customFields| :: board.customFields[i].name != CanvasUrlFieldName
    ensures r.Err? ==> r.error == Root("No custom field found named 'Canvas URL'")
    ensures r.Ok? ==> exists k | 0 <= k < |board.customFields| :: board.customFields[k] == Named(r.value, CanvasUrlFieldName)
  {
    LookupId(board.customFields, CanvasUrlFieldName, "No custom field found named 'Canvas URL'")
  }

  /** The id of the list that receives new cards; the report quotes the missing name. */
  function FindList(board: Board, listName: string): (r: Result<string, Error>)
    ensures r.Err? <==> forall i | 0 <= i < |board.lists| :: board.lists[i].name != listName
    ensures r.Err? ==> r.error == Root("Could not find list " + Debug(listName))
    ensures r.Ok? ==> exists k | 0 <= k < |board.lists| :: board.lists[k] == Named(r.value, listName)
  {
    LookupId(board.lists, listName, "Could not find list " + Debug(listName))
  }

  /** The id of the course's label; the report quotes the missing name. */
  function FindLabel(board: Board, labelName: string): (r: Result<string, Error>)
    ensures r.Err? <==> forall i | 0 <= i < |board.labels| :: board.labels[i].name != labelName
    ensures r.Err? ==> r.error == Root("Could not find label " + Debug(labelName))
    ensures r.Ok? ==> exists k | 0 <= k < |board.labels| :: board.labels[k] == Named(r.value, labelName)
  {
    LookupId(board.labels, labelName, "Could not find label " + Debug(labelName))
  }

  /** The tracking key: the assignment's URL with its scheme set to `https`. A URL whose
      scheme cannot be changed makes the program panic. */
  function CanvasUrl(u: Url): (r: Result<string, Error>)
    ensures r.Ok? <==> IsSpecial(u.scheme)
    ensures r.Ok? ==> r.value == "https:" + u.rest
    ensures r.Err? ==> r.error == Panic(UnwrapPanic)
  {
    match SetScheme(u, "https")
    case Some(v) => Ok(Serialize(v))
    case None => Err(Panic(UnwrapPanic))
  }

  /** The key ignores the scheme and keeps everything else: two URLs with convertible
      schemes share a key exactly when they agree after the scheme. */
  lemma SameKeyIffSameRest(u1: Url, u2: Url)
    requires IsSpecial(u1.scheme) && IsSpecial(u2.scheme)
    ensures CanvasUrl(u1) == CanvasUrl(u2) <==> u1.rest == u2.rest
  {
    if CanvasUrl(u1) == CanvasUrl(u2) {
      var k1, k2 := CanvasUrl(u1).value, CanvasUrl(u2).value;
      assert k1[6..] == u1.rest;
      assert k2[6..] == u2.rest;
    }
  }

  /** The description a card for this assignment should carry. */
  function RenderDescription(description: Option<string>, md: string -> string): (r: string)
    ensures Header <= r
    ensures r == Header <==> description.None?
    ensures description.Some? ==>
      Header + Rule <= r && r[|Header + Rule|..] == md(description.value)
  {
    match description
    case Some(d) => Header + Rule + md(d)
    case None => Header
  }

  function ForField(fieldId: string): CustomFieldItem -> bool
  {
    (i: CustomFieldItem) => i.idCustomField == fieldId
  }

  /** The text of the card's first item for the given field, when that item holds text. */
  function TrackedUrl(card: Card, fieldId: string): Option<string>
  {
    var items := card.customFieldItems;
    var k := Find(items, ForField(fieldId));
    if k < |items| then AsStr(items[k]) else None
  }

  /** Only the first item for the field decides: a card is tracked under `key` exactly when
      that item is the text value `key`, whatever later items hold. */
  lemma TrackedByFirstItem(card: Card, fieldId: string, key: string,
                           pre: seq<CustomFieldItem>, item: CustomFieldItem, post: seq<CustomFieldItem>)
    requires card.customFieldItems == pre + [item] + post
    requires forall j | 0 <= j < |pre| :: pre[j].idCustomField != fieldId
    requires item.idCustomField == fieldId
    ensures TrackedUrl(card, fieldId) == Some(key) <==> item.value == Text(key)
  {
    FindFirst(card.customFieldItems, ForField(fieldId), |pre|);
  }

  /** A card with no item for the field carries no tracking key. */
  lemma UntrackedWithoutItem(card: Card, fieldId: string)
    requires forall j | 0 <= j < |card.customFieldItems| :: card.customFieldItems[j].idCustomField != fieldId
    ensures TrackedUrl(card, fieldId) == None
  {
  }

  function TracksKey(fieldId: string, key: string): Card -> bool
  {
    (c: Card) => TrackedUrl(c, fieldId) == Some(key)
  }

  /** The cards already linked to the assignment: those whose tracking field holds the key. */
  function CardsWithUrl(cards: seq<Card>, fieldId: string, key: string): (r: seq<Card>)
    ensures |r| <= |cards|
    ensures forall c :: c in r <==> c in cards && TrackedUrl(c, fieldId) == Some(key)
  {
    Filter(cards, TracksKey(fieldId, key))
  }

  /** Matching keeps board order: a card alone is kept exactly when it is tracked under the
      key, and the matches of a concatenation are the matches of each part, in turn. */
  lemma MatchesInBoardOrder(a: seq<Card>, b: seq<Card>, c: Card, fieldId: string, key: string)
    ensures CardsWithUrl(a + b, fieldId, key) == CardsWithUrl(a, fieldId, key) + CardsWithUrl(b, fieldId, key)
    ensures CardsWithUrl([c], fieldId, key) == if TrackedUrl(c, fieldId) == Some(key) then [c] else []
  {
    FilterConcat(a, b, TracksKey(fieldId, key));
  }

  /** A card without custom-field items is never matched, on any board and under any key. */
  lemma CardWithoutItemsNeverMatched(card: Card, cards: seq<Card>, fieldId: string, key: string)
    requires card.customFieldItems == []
    ensures card !in CardsWithUrl(cards, fieldId, key)
  {
  }

  /** The three ways a matched card can be stale. */
  datatype Mismatch = Mismatch(due: bool, complete: bool, desc: bool)

  /** Compares a matched card with the assignment. The description counts only on a card
      whose description opens with the header, that is, one this program wrote. */
  function Mismatches(card: Card, dueAt: Timestamp, submitted: bool, newDesc: string): Mismatch
  {
    Mismatch(
      card.due != Some(dueAt),
      card.dueComplete != submitted,
      Header <= card.desc && card.desc != newDesc)
  }

  predicate NeedsUpdate(m: Mismatch)
  {
    m.due || m.complete || m.desc
  }

  /** A matched card is left alone exactly when its due time and completion flag agree with
      the assignment and its description either agrees or was not written by this program. */
  lemma UpToDateIff(card: Card, dueAt: Timestamp, submitted: bool, newDesc: string)
    ensures !NeedsUpdate(Mismatches(card, dueAt, submitted, newDesc)) <==>
      && card.due == Some(dueAt)
      && card.dueComplete == submitted
      && (Header <= card.desc ==> card.desc == newDesc)
  {
  }

  /** The fields every update sends, whichever of them differed. */
  function UpdatePatch(dueAt: Timestamp, submitted: bool, newDesc: string, rfc3339: Timestamp -> string): seq<(string, string)>
  {
    [ ("due", rfc3339(dueAt)),
      ("dueComplete", BoolString(submitted)),
      ("desc", newDesc) ]
  }

  /** The collected patch sets exactly the due time, the completion flag and the description. */
  lemma UpdatePatchIsFull(dueAt: Timestamp, submitted: bool, newDesc: string, rfc3339: Timestamp -> string)
    ensures CollectPatch(UpdatePatch(dueAt, submitted, newDesc, rfc3339)) ==
      map["due" := rfc3339(dueAt), "dueComplete" := BoolString(submitted), "desc" := newDesc]
  {
    var p := UpdatePatch(dueAt, submitted, newDesc, rfc3339);
    assert p[..2][..1][..0] == [];
    assert CollectPatch(p[..2][..1]) == map["due" := rfc3339(dueAt)];
    assert CollectPatch(p[..2]) == map["due" := rfc3339(dueAt), "dueComplete" := BoolString(submitted)];
  }

  /** The description of a card this program did not write is never a reason to update
      it; but once its due time or completion flag is stale, the full patch replaces that
      description with the generated one. */
  lemma ForeignDescriptionReplaced(card: Card, dueAt: Timestamp, submitted: bool, newDesc: string,
                                   rfc3339: Timestamp -> string)
    requires !(Header <= card.desc)
    ensures !Mismatches(card, dueAt, submitted, newDesc).desc
    ensures NeedsUpdate(Mismatches(card, dueAt, submitted, newDesc)) <==>
      card.due != Some(dueAt) || card.dueComplete != submitted
    ensures NeedsUpdate(Mismatches(card, dueAt, submitted, newDesc)) ==>
      "desc" in CollectPatch(UpdatePatch(dueAt, submitted, newDesc, rfc3339)) &&
      CollectPatch(UpdatePatch(dueAt, submitted, newDesc, rfc3339))["desc"] == newDesc
  {
    UpdatePatchIsFull(dueAt, submitted, newDesc, rfc3339);
  }

  /** The fields of the card created for an assignment that no card tracks yet. */
  function NewCardFields(a: Assignment, newDesc: string, submitted: bool, labelId: string): CreateCard
  {
    CreateCard(a.name, newDesc, a.dueAt, submitted, [labelId])
  }

  /** The create request names the assignment, carries its description, due time and
      completion flag, and gives the card exactly the course's label. */
  lemma NewCardQuery(listId: string, a: Assignment, newDesc: string, submitted: bool, labelId: string, rfc3339: Timestamp -> string)
    ensures var q := CreateCardQuery(listId, NewCardFields(a, newDesc, submitted, labelId), rfc3339);
      && QueryValue(q, "idList") == Some(listId)
      && QueryValue(q, "name") == Some(a.name)
      && QueryValue(q, "desc") == Some(newDesc)
      && QueryValue(q, "due") == Some(rfc3339(a.dueAt))
      && QueryValue(q, "due_complete") == Some(BoolString(submitted))
      && QueryValue(q, "idLabels") == Some(labelId)
  {
    CreateCardQueryCarries(listId, NewCardFields(a, newDesc, submitted, labelId), rfc3339);
  }
}
