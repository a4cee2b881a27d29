/**
  What the extracted events say, by the paths of the payload alone (app/normalizer.py:23-112):
  where each object lies, which event it becomes, and at which path each of its
  fields is read.
 */
module Paths {
  import opened Normalizer

  /** Where an item of the walk lies: entry[entry].changes[change].value.messages[item], or .statuses[item]. */
  datatype Spot = Spot(entry: nat, change: nat, kind: Kind, item: nat)

  /** The object under `value` of a change. */
  predicate ValueAt(payload: Json, i: nat, j: nat, value: Dict) {
    && payload.Obj? && "entry" in payload.fields
    && var entries := payload.fields["entry"];
    && entries.Arr? && i < |entries.items|
    && var entry := entries.items[i];
    && entry.Obj? && "changes" in entry.fields
    && var changes := entry.fields["changes"];
    && changes.Arr? && j < |changes.items|
    && var change := changes.items[j];
    && change.Obj? && "value" in change.fields && change.fields["value"] == Obj(value)
  }

  predicate ItemAt(value: Dict, kind: Kind, k: nat, item: Dict) {
    var key := if kind.Message? then "messages" else "statuses";
    && key in value && value[key].Arr?
    && k < |value[key].items| && value[key].items[k] == Obj(item)
  }

  /** `item` lies at `spot`, in the change whose value is `value`. */
  predicate LiesAt(payload: Json, spot: Spot, value: Dict, item: Dict) {
    ValueAt(payload, spot.entry, spot.change, value) && ItemAt(value, spot.kind, spot.item, item)
  }

  /** Document order; in one change the messages come first. */
  predicate Before(a: Spot, b: Spot) {
    if a.entry != b.entry then a.entry < b.entry
    else if a.change != b.change then a.change < b.change
    else if a.kind != b.kind then a.kind.Message?
    else a.item < b.item
  }

  /** What Python takes for true. */
  predicate Usable(value: Json) {
    && value != Null && value != Bool(false) && value != Num(0.0)
    && value != Str("") && value != Arr([]) && value != Obj(map[])
  }

  predicate HasUsableId(item: Dict) {
    "id" in item && Usable(item["id"])
  }

  /** `value` is what stands under `key`, or None. */
  predicate Under(fields: Dict, key: string, value: Json) {
    value == if key in fields then fields[key] else Null
  }

  /** `value` is what stands at fields.outer.inner, or None where that path breaks off. */
  predicate UnderBoth(fields: Dict, outer: string, inner: string, value: Json) {
    value == if outer in fields && fields[outer].Obj? && inner in fields[outer].fields then fields[outer].fields[inner]
             else Null
  }

  predicate HasBoth(fields: Dict, outer: string, inner: string) {
    outer in fields && fields[outer].Obj? && inner in fields[outer].fields
  }

  /** The text of a message, type by type. */
  predicate TextIs(message: Dict, text: Text) {
    if !("type" in message && message["type"].Str?) then text == Leaf(Null)
    else
      var kind := message["type"].s;
      if kind == "text" then text.Leaf? && UnderBoth(message, "text", "body", text.value)
      else if kind == "button" then text.Leaf? && UnderBoth(message, "button", "text", text.value)
      else if kind == "interactive" then
        if HasBoth(message, "interactive", "button_reply") then
          text.Leaf? && UnderBoth(message["interactive"].fields, "button_reply", "title", text.value)
        else if HasBoth(message, "interactive", "list_reply") then
          text.Leaf? && UnderBoth(message["interactive"].fields, "list_reply", "title", text.value)
        else text == Leaf(Null)
      else if kind == "image" || kind == "video" || kind == "document" || kind == "audio" || kind == "sticker" then
        text.Leaf? && UnderBoth(message, kind, "caption", text.value)
      else if kind == "location" then
        if HasBoth(message, "location", "latitude") && HasBoth(message, "location", "longitude")
           && message["location"].fields["latitude"] != Null && message["location"].fields["longitude"] != Null
        then text == Coordinates(message["location"].fields["latitude"], message["location"].fields["longitude"])
        else text == Leaf(Null)
      else text == Leaf(Null)
  }

  /** The event of an item, field by field. */
  predicate EventIs(e: NormalizedEvent, kind: Kind, value: Dict, item: Dict) {
    && e.raw == item && e.eventType == kind
    && Under(item, "id", e.messageId) && Under(item, "timestamp", e.timestamp)
    && UnderBoth(value, "metadata", "display_phone_number", e.toNumber)
    && (kind.Message? ==>
          && Under(item, "from", e.fromNumber) && Under(item, "type", e.messageType)
          && TextIs(item, e.text) && e.status == Null)
    && (kind.Status? ==>
          && Under(item, "recipient_id", e.fromNumber) && Under(item, "status", e.status)
          && e.messageType == Null && e.text == Leaf(Null))
  }

  lemma TruthyIsUsable(value: Json)
    ensures Truthy(value) <==> Usable(value)
  {
  }

  lemma TextIsExtracted(message: Dict)
    ensures TextIs(message, ExtractText(message))
  {
  }

  lemma EventIsMade(kind: Kind, value: Dict, item: Dict)
    ensures EventIs(EventFor(Node(kind, item, ToNumberOf(value))), kind, value, item)
  {
    TextIsExtracted(item);
  }

  // ----- where a spot comes in the walk -----

  lemma {:induction false} FlatMapAt<A, B>(f: A -> seq<B>, xs: seq<A>, i: nat, k: nat)
    requires i < |xs| && k < |f(xs[i])|
    ensures var at := |FlatMap(f, xs[..i])| + k; at < |FlatMap(f, xs)| && FlatMap(f, xs)[at] == f(xs[i])[k]
  {
    FlatMapNext(f, xs, i);
    FlatMapConcat(f, xs[..i + 1], xs[i + 1..]);
    assert xs[..i + 1] + xs[i + 1..] == xs;
  }

  lemma {:induction false} FlatMapGrows<A, B>(f: A -> seq<B>, xs: seq<A>, i: nat, j: nat)
    requires i < j <= |xs|
    ensures |FlatMap(f, xs[..i])| + |f(xs[i])| <= |FlatMap(f, xs[..j])|
  {
    FlatMapNext(f, xs, i);
    FlatMapConcat(f, xs[..i + 1], xs[i + 1..j]);
    assert xs[..i + 1] + xs[i + 1..j] == xs[..j];
  }

  lemma {:induction false} ItemNodesAre(kind: Kind, items: seq<Json>, toNumber: Json)
    ensures |ItemNodes(kind, items, toNumber)| == |items|
    ensures forall k :: 0 <= k < |items| ==>
      ItemNodes(kind, items, toNumber)[k] == Node(kind, AsDict(items[k]), toNumber)
  {
    if items != [] {
      ItemNodesAre(kind, items[..|items| - 1], toNumber);
    }
  }

  function EntriesOf(payload: Json): seq<Json> {
    AsList(Get(AsDict(payload), "entry"))
  }

  function ItemsOf(value: Dict, kind: Kind): seq<Json> {
    AsList(Get(value, ItemsKey(kind)))
  }

  /** The number of nodes before the k-th item of this kind, in its change. */
  function InChange(value: Dict, kind: Kind, k: nat): nat {
    if kind.Message? then k else |ItemsOf(value, Message)| + k
  }

  lemma ChangeNodesAre(change: Json, kind: Kind, k: nat)
    requires k < |ItemsOf(ValueOf(change), kind)|
    ensures var value, nodes := ValueOf(change), ChangeNodes(change);
      && |nodes| == |ItemsOf(value, Message)| + |ItemsOf(value, Status)|
      && InChange(value, kind, k) < |nodes|
      && nodes[InChange(value, kind, k)] == Node(kind, AsDict(ItemsOf(value, kind)[k]), ToNumberOf(value))
  {
    var value := ValueOf(change);
    ItemNodesAre(Message, ItemsOf(value, Message), ToNumberOf(value));
    ItemNodesAre(Status, ItemsOf(value, Status), ToNumberOf(value));
  }

  /** How far into its entry's nodes a spot is. */
  function InEntry(changes: seq<Json>, spot: Spot): nat
    requires spot.change < |changes|
  {
    |FlatMap(ChangeNodes, changes[..spot.change])| + InChange(ValueOf(changes[spot.change]), spot.kind, spot.item)
  }

  function NodeIn(changes: seq<Json>, spot: Spot): Node
    requires spot.change < |changes| && spot.item < |ItemsOf(ValueOf(changes[spot.change]), spot.kind)|
  {
    var value := ValueOf(changes[spot.change]);
    Node(spot.kind, AsDict(ItemsOf(value, spot.kind)[spot.item]), ToNumberOf(value))
  }

  /** The spot is one the walk over these entries comes to. */
  predicate Visits(entries: seq<Json>, spot: Spot) {
    && spot.entry < |entries|
    && var changes := ChangesOf(entries[spot.entry]);
    && spot.change < |changes|
    && spot.item < |ItemsOf(ValueOf(changes[spot.change]), spot.kind)|
  }

  predicate Visited(payload: Json, spot: Spot) {
    Visits(EntriesOf(payload), spot)
  }

  function ChangeAt(payload: Json, spot: Spot): Json
    requires Visited(payload, spot)
  {
    ChangesOf(EntriesOf(payload)[spot.entry])[spot.change]
  }

  function NodeAt(payload: Json, spot: Spot): Node
    requires Visited(payload, spot)
  {
    NodeIn(ChangesOf(EntriesOf(payload)[spot.entry]), spot)
  }

  /** Which node of the walk a spot is. */
  function IndexIn(entries: seq<Json>, spot: Spot): nat
    requires Visits(entries, spot)
  {
    |FlatMap(EntryNodes, entries[..spot.entry])| + InEntry(ChangesOf(entries[spot.entry]), spot)
  }

  function NodeIndex(payload: Json, spot: Spot): nat
    requires Visited(payload, spot)
  {
    IndexIn(EntriesOf(payload), spot)
  }

  /** Which event it becomes: the number of items with an id before it. */
  function EventIndex(payload: Json, spot: Spot): nat {
    if Visited(payload, spot) && NodeIndex(payload, spot) <= |Nodes(payload)|
    then IdRank(Nodes(payload), NodeIndex(payload, spot)) else 0
  }

  predicate IsAt(nodes: seq<Node>, n: nat, node: Node) {
    n < |nodes| && nodes[n] == node
  }

  lemma NodeInChange(changes: seq<Json>, spot: Spot)
    requires spot.change < |changes| && spot.item < |ItemsOf(ValueOf(changes[spot.change]), spot.kind)|
    ensures var change := changes[spot.change];
      IsAt(ChangeNodes(change), InChange(ValueOf(change), spot.kind, spot.item), NodeIn(changes, spot))
  {
    ChangeNodesAre(changes[spot.change], spot.kind, spot.item);
  }

  lemma ChangeInEntry(changes: seq<Json>, j: nat, k: nat, node: Node)
    requires j < |changes| && IsAt(ChangeNodes(changes[j]), k, node)
    ensures IsAt(FlatMap(ChangeNodes, changes), |FlatMap(ChangeNodes, changes[..j])| + k, node)
  {
    FlatMapAt(ChangeNodes, changes, j, k);
  }

  lemma NodeInEntry(changes: seq<Json>, spot: Spot)
    requires spot.change < |changes| && spot.item < |ItemsOf(ValueOf(changes[spot.change]), spot.kind)|
    ensures IsAt(FlatMap(ChangeNodes, changes), InEntry(changes, spot), NodeIn(changes, spot))
  {
    hide FlatMap;
    NodeInChange(changes, spot);
    ChangeInEntry(changes, spot.change, InChange(ValueOf(changes[spot.change]), spot.kind, spot.item),
                  NodeIn(changes, spot));
  }

  lemma NodeInPayload(entries: seq<Json>, i: nat, changes: seq<Json>, k: nat, node: Node)
    requires i < |entries| && changes == ChangesOf(entries[i]) && IsAt(FlatMap(ChangeNodes, changes), k, node)
    ensures IsAt(FlatMap(EntryNodes, entries), |FlatMap(EntryNodes, entries[..i])| + k, node)
  {
    FlatMapAt(EntryNodes, entries, i, k);
  }

  lemma NodeIsThere(payload: Json, spot: Spot)
    requires Visited(payload, spot)
    ensures IsAt(Nodes(payload), NodeIndex(payload, spot), NodeAt(payload, spot))
  {
    hide FlatMap;
    var entries := EntriesOf(payload);
    var changes := ChangesOf(entries[spot.entry]);
    NodeInEntry(changes, spot);
    NodeInPayload(entries, spot.entry, changes, InEntry(changes, spot), NodeIn(changes, spot));
  }

  lemma LiesThere(payload: Json, spot: Spot, value: Dict, item: Dict)
    requires LiesAt(payload, spot, value, item)
    ensures Visited(payload, spot) && NodeAt(payload, spot) == Node(spot.kind, item, ToNumberOf(value))
  {
  }

  /** Every object with a usable id has its event, and the event says what stands at the object's paths. */
  lemma {:induction false} EveryItemHasItsEvent(payload: Json, spot: Spot, value: Dict, item: Dict)
    requires LiesAt(payload, spot, value, item) && HasUsableId(item)
    ensures var events, at := Events(EventFor, Nodes(payload)), EventIndex(payload, spot);
      at < |events| && EventIs(events[at], spot.kind, value, item)
  {
    LiesThere(payload, spot, value, item);
    NodeIsThere(payload, spot);
    TruthyIsUsable(item["id"]);
    OneEventPerNode(EventFor, Nodes(payload), NodeIndex(payload, spot));
    EventIsMade(spot.kind, value, item);
  }

  // ----- in document order -----

  lemma {:induction false} RankGrows(nodes: seq<Node>, i: nat, j: nat)
    requires i < j <= |nodes| && HasId(nodes[i])
    ensures IdRank(nodes, i) < IdRank(nodes, j)
  {
    if i + 1 < j {
      RankGrows(nodes, i, j - 1);
    }
  }

  lemma InEntryOrder(changes: seq<Json>, a: Spot, b: Spot)
    requires a.change < |changes| && b.change < |changes| && a.entry == b.entry && Before(a, b)
    requires a.item < |ItemsOf(ValueOf(changes[a.change]), a.kind)|
    ensures InEntry(changes, a) < InEntry(changes, b)
  {
    if a.change < b.change {
      ChangeNodesAre(changes[a.change], a.kind, a.item);
      FlatMapGrows(ChangeNodes, changes, a.change, b.change);
    }
  }

  lemma NodesInOrder(payload: Json, a: Spot, b: Spot)
    requires Visited(payload, a) && Visited(payload, b) && Before(a, b)
    ensures NodeIndex(payload, a) < NodeIndex(payload, b)
  {
    var entries := EntriesOf(payload);
    if a.entry == b.entry {
      InEntryOrder(ChangesOf(entries[a.entry]), a, b);
    } else {
      NodeInEntry(ChangesOf(entries[a.entry]), a);
      FlatMapGrows(EntryNodes, entries, a.entry, b.entry);
    }
  }

  /**
    The events stand in the order of the document: of two objects with a usable id the
    one that comes first has the earlier event, a message before any status of its
    change. So no two share one.
   */
  lemma {:induction false} EventsInDocumentOrder(payload: Json, a: Spot, x: Dict, first: Dict,
                                                 b: Spot, y: Dict, second: Dict)
    requires LiesAt(payload, a, x, first) && LiesAt(payload, b, y, second) && Before(a, b)
    requires HasUsableId(first) && HasUsableId(second)
    ensures EventIndex(payload, a) < EventIndex(payload, b) < |Events(EventFor, Nodes(payload))|
  {
    LiesThere(payload, a, x, first);
    LiesThere(payload, b, y, second);
    NodeIsThere(payload, a);
    NodeIsThere(payload, b);
    NodesInOrder(payload, a, b);
    TruthyIsUsable(first["id"]);
    RankGrows(Nodes(payload), NodeIndex(payload, a), NodeIndex(payload, b));
    EveryItemHasItsEvent(payload, b, y, second);
  }

  // ----- and no others -----

  lemma {:induction false} RankFound(nodes: seq<Node>, end: nat, at: nat) returns (n: nat)
    requires end <= |nodes| && at < IdRank(nodes, end)
    ensures n < end && HasId(nodes[n]) && IdRank(nodes, n) == at
  {
    if at < IdRank(nodes, end - 1) {
      n := RankFound(nodes, end - 1, at);
    } else {
      n := end - 1;
    }
  }

  lemma {:induction false} FlatMapFound<A, B>(f: A -> seq<B>, xs: seq<A>, at: nat) returns (i: nat, k: nat)
    requires at < |FlatMap(f, xs)|
    ensures i < |xs| && k < |f(xs[i])| && at == |FlatMap(f, xs[..i])| + k
  {
    var n := |xs| - 1;
    if at >= |FlatMap(f, xs[..n])| {
      return n, at - |FlatMap(f, xs[..n])|;
    }
    i, k := FlatMapFound(f, xs[..n], at);
    assert xs[..n][..i] == xs[..i];
  }

  /** Each node of the walk is some spot's. */
  lemma SpotFound(payload: Json, n: nat) returns (spot: Spot)
    requires n < |Nodes(payload)|
    ensures Visited(payload, spot) && NodeIndex(payload, spot) == n
  {
    hide FlatMap;
    var entries := EntriesOf(payload);
    var i, inEntry := FlatMapFound(EntryNodes, entries, n);
    var changes := ChangesOf(entries[i]);
    var j, inChange := FlatMapFound(ChangeNodes, changes, inEntry);
    var value := ValueOf(changes[j]);
    ItemNodesAre(Message, ItemsOf(value, Message), ToNumberOf(value));
    ItemNodesAre(Status, ItemsOf(value, Status), ToNumberOf(value));
    var messages := |ItemsOf(value, Message)|;
    spot := if inChange < messages then Spot(i, j, Message, inChange) else Spot(i, j, Status, inChange - messages);
  }

  lemma VisitedLies(payload: Json, spot: Spot)
    requires Visited(payload, spot) && HasId(NodeAt(payload, spot))
    ensures LiesAt(payload, spot, ValueOf(ChangeAt(payload, spot)), NodeAt(payload, spot).fields)
    ensures HasUsableId(NodeAt(payload, spot).fields)
  {
    TruthyIsUsable(Get(NodeAt(payload, spot).fields, "id"));
  }

  /** Every event is that of an object with a usable id somewhere in the payload. */
  lemma {:induction false} EveryEventHasItsItem(payload: Json, at: nat)
    returns (spot: Spot, value: Dict, item: Dict)
    requires at < |Events(EventFor, Nodes(payload))|
    ensures LiesAt(payload, spot, value, item) && HasUsableId(item) && EventIndex(payload, spot) == at
    ensures EventIs(Events(EventFor, Nodes(payload))[at], spot.kind, value, item)
  {
    var nodes := Nodes(payload);
    if nodes != [] {
      OneEventPerNode(EventFor, nodes, 0);
    }
    var n := RankFound(nodes, |nodes|, at);
    spot := SpotFound(payload, n);
    NodeIsThere(payload, spot);
    VisitedLies(payload, spot);
    value, item := ValueOf(ChangeAt(payload, spot)), NodeAt(payload, spot).fields;
    EveryItemHasItsEvent(payload, spot, value, item);
  }
}
