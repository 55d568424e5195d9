/** The board service's records and the requests its client builds. */
module Trello {
  import opened Wrappers
  import opened Strings
  import opened Seqs
  import opened Time

  /** The shape shared by labels, lists and custom-field definitions: an id and a display name. */
  datatype Named = Named(id: string, name: string)

  type Label = Named

  type List = Named

  type CustomFieldDesc = Named

  /** A custom-field value: a text value, or any other payload (kept as its raw JSON text). */
  datatype CustomFieldValue = Text(text: string) | Other(payload: string)

  datatype CustomFieldItem = CustomFieldItem(id: string, value: CustomFieldValue, idCustomField: string)

  /** The item's text, when its value is a text value. */
  function AsStr(item: CustomFieldItem): (r: Option<string>)
    ensures r.Some? <==> item.value.Text?
    ensures r.Some? ==> r.value == item.value.text
  {
    match item.value
    case Text(text) => Some(text)
    case Other(_) => None
  }

  /** A card. A payload without custom-field items decodes to an empty item list. */
  datatype Card = Card(
    id: string,
    name: string,
    desc: string,
    due: Option<Timestamp>,
    dueComplete: bool,
    labels: seq<Label>,
    customFieldItems: seq<CustomFieldItem>)

  datatype Board = Board(
    cards: seq<Card>,
    customFields: seq<CustomFieldDesc>,
    labels: seq<Label>,
    lists: seq<List>)

  /** The fields of a card to be created. */
  datatype CreateCard = CreateCard(
    name: string,
    desc: string,
    due: Timestamp,
    dueComplete: bool,
    labelIds: seq<string>)

  /** A call to the board service's client, with the arguments the caller passes. */
  datatype Call =
    | Update(cardId: string, patch: seq<(string, string)>)
    | Create(listId: string, fields: CreateCard)
    | SetCustomField(cardId: string, fieldId: string, value: CustomFieldValue)

  /** `update_card` collects the patch pairs into a map; a later pair for a key replaces an earlier one. */
  function CollectPatch(pairs: seq<(string, string)>): (m: map<string, string>)
    ensures forall k :: k in m <==> exists i | 0 <= i < |pairs| :: pairs[i].0 == k
    ensures forall k | k in m :: exists i | 0 <= i < |pairs| :: pairs[i] == (k, m[k])
    decreases |pairs|
  {
    if |pairs| == 0 then map[]
    else
      var init := pairs[..|pairs| - 1];
      var last := pairs[|pairs| - 1];
      assert forall i | 0 <= i < |init| :: init[i] == pairs[i];
      CollectPatch(init)[last.0 := last.1]
  }

  /** The value of a key in the collected patch is the one its last pair carries. */
  lemma {:induction false} CollectPatchLastWins(pre: seq<(string, string)>, k: string, v: string, post: seq<(string, string)>)
    requires forall j | 0 <= j < |post| :: post[j].0 != k
    ensures var m := CollectPatch(pre + [(k, v)] + post); k in m && m[k] == v
    decreases |post|
  {
    var pairs := pre + [(k, v)] + post;
    if |post| == 0 {
      assert pairs[..|pairs| - 1] == pre;
    } else {
      var init := post[..|post| - 1];
      assert pairs[..|pairs| - 1] == pre + [(k, v)] + init;
      var last := post[|post| - 1];
      assert pairs[|pairs| - 1] == last && last.0 != k;
      assert CollectPatch(pairs) == CollectPatch(pre + [(k, v)] + init)[last.0 := last.1];
      CollectPatchLastWins(pre, k, v, init);
    }
  }

  /** The query `create_card` sends: one pair per field of the new card. */
  function CreateCardQuery(listId: string, card: CreateCard, rfc3339: Timestamp -> string): seq<(string, string)>
  {
    [ ("idList", listId),
      ("name", card.name),
      ("desc", card.desc),
      ("due", rfc3339(card.due)),
      ("due_complete", BoolString(card.dueComplete)),
      ("idLabels", Join(card.labelIds, ",")) ]
  }

  function HasKey(key: string): ((string, string)) -> bool
  {
    (kv: (string, string)) => kv.0 == key
  }

  /** The value a query carries for a key: that of its first pair with the key. */
  function QueryValue(query: seq<(string, string)>, key: string): Option<string>
  {
    var k := Find(query, HasKey(key));
    if k < |query| then Some(query[k].1) else None
  }

  /** The create query carries each field of the card under its own key, and the label ids
      joined with commas. */
  lemma CreateCardQueryCarries(listId: string, card: CreateCard, rfc3339: Timestamp -> string)
    ensures var q := CreateCardQuery(listId, card, rfc3339);
      && QueryValue(q, "idList") == Some(listId)
      && QueryValue(q, "name") == Some(card.name)
      && QueryValue(q, "desc") == Some(card.desc)
      && QueryValue(q, "due") == Some(rfc3339(card.due))
      && QueryValue(q, "due_complete") == Some(BoolString(card.dueComplete))
      && QueryValue(q, "idLabels") == Some(Join(card.labelIds, ","))
  {
    var q := CreateCardQuery(listId, card, rfc3339);
    FindFirst(q, HasKey("idList"), 0);
    FindFirst(q, HasKey("name"), 1);
    FindFirst(q, HasKey("desc"), 2);
    FindFirst(q, HasKey("due"), 3);
    FindFirst(q, HasKey("due_complete"), 4);
    FindFirst(q, HasKey("idLabels"), 5);
  }

  /** The completion flag goes under `due_complete`, so the query has no `dueComplete` key
      (the key `update_card` uses); a single label id is sent as it is. */
  lemma CreateCardQueryKeys(listId: string, card: CreateCard, rfc3339: Timestamp -> string)
    ensures QueryValue(CreateCardQuery(listId, card, rfc3339), "dueComplete") == None
    ensures |card.labelIds| == 1 ==> Join(card.labelIds, ",") == card.labelIds[0]
  {
    var q := CreateCardQuery(listId, card, rfc3339);
    forall j | 0 <= j < |q| ensures q[j].0 != "dueComplete" {
      assert q[j].0 in ["idList", "name", "desc", "due", "due_complete", "idLabels"];
    }
  }

  /** `update_card` once its request has gone out: only a failure to send is an error. */
  function UpdateCardOutcome(cardId: string, reply: Reply<Card>): (r: Outcome<Error>)
    ensures r.Fail? <==> reply.SendFailed?
    ensures r.Fail? ==> r.error == Wrapped("Failed to update card: " + Debug(cardId), Root(reply.reason))
  {
    match reply
    case SendFailed(why) => Fail(Wrapped("Failed to update card: " + Debug(cardId), Root(why)))
    case Received(_) => Pass
  }

  /** `create_card` once its request has gone out: the new card is the decoded response body. */
  function CreateCardOutcome(fields: CreateCard, reply: Reply<Card>): (r: Result<Card, Error>)
    ensures r.Ok? <==> reply.Received? && reply.body.Ok?
    ensures r.Ok? ==> r.value == reply.body.value
    ensures reply.SendFailed? ==> r == Err(Wrapped("Failed to create card: " + Debug(fields.name), Root(reply.reason)))
    ensures reply.Received? && reply.body.Err? ==> r == Err(Wrapped("Failed to parse response body", Root(reply.body.error)))
  {
    match reply
    case SendFailed(why) => Err(Wrapped("Failed to create card: " + Debug(fields.name), Root(why)))
    case Received(Err(why)) => Err(Wrapped("Failed to parse response body", Root(why)))
    case Received(Ok(card)) => Ok(card)
  }

  /** `set_card_custom_field` once its request has gone out: only a failure to send is an error. */
  function SetCustomFieldOutcome(cardId: string, reply: Reply<Card>): (r: Outcome<Error>)
    ensures r.Fail? <==> reply.SendFailed?
    ensures r.Fail? ==> r.error == Wrapped("Failed to set custom field of card: " + Debug(cardId), Root(reply.reason))
  {
    match reply
    case SendFailed(why) => Fail(Wrapped("Failed to set custom field of card: " + Debug(cardId), Root(why)))
    case Received(_) => Pass
  }
}
