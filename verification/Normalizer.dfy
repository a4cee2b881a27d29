/**
  The walk over a webhook payload (app/normalizer.py): nested loops that append
  one event per message or status with an id, whatever junk surrounds it. Leaves
  are carried as they are; checking their types is the event schema's business.
 */
module Normalizer {

  datatype Json =
    | Null
    | Bool(b: bool)
    | Num(n: real)
    | Str(s: string)
    | Arr(items: seq<Json>)
    | Obj(fields: Dict)

  type Dict = map<string, Json>

  datatype Kind = Message | Status

  datatype Text = Leaf(value: Json) | Coordinates(latitude: Json, longitude: Json)

  const NoText := Leaf(Null)

  datatype NormalizedEvent = NormalizedEvent(
    messageId: Json, eventType: Kind, messageType: Json, text: Text, status: Json,
    fromNumber: Json, toNumber: Json, timestamp: Json, raw: Dict)

  function AsDict(value: Json): Dict {
    if value.Obj? then value.fields else map[]
  }

  function AsList(value: Json): seq<Json> {
    if value.Arr? then value.items else []
  }

  /** dict.get: None for a missing key. */
  function Get(fields: Dict, key: string): Json {
    if key in fields then fields[key] else Null
  }

  predicate Truthy(value: Json) {
    match value
    case Null => false
    case Bool(b) => b
    case Num(n) => n != 0.0
    case Str(s) => s != ""
    case Arr(items) => items != []
    case Obj(fields) => fields != map[]
  }

  function ExtractText(message: Dict): Text {
    var msgType := Get(message, "type");
    if msgType == Str("text") then Leaf(Get(AsDict(Get(message, "text")), "body"))
    else if msgType == Str("button") then Leaf(Get(AsDict(Get(message, "button")), "text"))
    else if msgType == Str("interactive") then
      var interactive := AsDict(Get(message, "interactive"));
      if "button_reply" in interactive then Leaf(Get(AsDict(interactive["button_reply"]), "title"))
      else if "list_reply" in interactive then Leaf(Get(AsDict(interactive["list_reply"]), "title"))
      else NoText
    else if msgType.Str? && msgType.s in ["image", "video", "document", "audio", "sticker"] then
      Leaf(Get(AsDict(Get(message, msgType.s)), "caption"))
    else if msgType == Str("location") then
      var location := AsDict(Get(message, "location"));
      var lat, lng := Get(location, "latitude"), Get(location, "longitude");
      if lat != Null && lng != Null then Coordinates(lat, lng) else NoText
    else NoText
  }

  function MessageEvent(message: Dict, toNumber: Json): NormalizedEvent {
    NormalizedEvent(Get(message, "id"), Message, Get(message, "type"), ExtractText(message), Null,
                    Get(message, "from"), toNumber, Get(message, "timestamp"), message)
  }

  function StatusEvent(status: Dict, toNumber: Json): NormalizedEvent {
    NormalizedEvent(Get(status, "id"), Status, Null, NoText, Get(status, "status"),
                    Get(status, "recipient_id"), toNumber, Get(status, "timestamp"), status)
  }

  /** One event per node: a message or a status, by the list it was found in. */
  function EventFor(node: Node): NormalizedEvent {
    if node.kind.Message? then MessageEvent(node.fields, node.toNumber) else StatusEvent(node.fields, node.toNumber)
  }

  /** The text comes from the sub-object the type names, whatever else the message holds. */
  lemma TextReadsOnlyItsField(message: Dict, key: string, value: Json)
    requires key != "type" && Get(message, "type") != Str(key)
    ensures ExtractText(message[key := value]) == ExtractText(message)
  {
    var changed := message[key := value];
    assert Get(changed, "type") == Get(message, "type");
    var msgType := Get(message, "type");
    if msgType.Str? {
      assert Get(changed, msgType.s) == Get(message, msgType.s);
    }
  }

  // ----- the reference: list every node in document order, keep those with an id -----

  /** A message or status object, with the number found beside it. */
  datatype Node = Node(kind: Kind, fields: Dict, toNumber: Json)

  function FlatMap<A, B>(f: A -> seq<B>, xs: seq<A>): seq<B> {
    if xs == [] then [] else FlatMap(f, xs[..|xs| - 1]) + f(xs[|xs| - 1])
  }

  function Listed(kind: Kind, toNumber: Json): Json -> seq<Node> {
    (item: Json) => [Node(kind, AsDict(item), toNumber)]
  }

  function ValueOf(change: Json): Dict {
    AsDict(Get(AsDict(change), "value"))
  }

  function ToNumberOf(value: Dict): Json {
    Get(AsDict(Get(value, "metadata")), "display_phone_number")
  }

  /** In each change, its messages come before its statuses. */
  function ChangeNodes(change: Json): seq<Node> {
    var value := ValueOf(change);
    ItemNodes(Message, AsList(Get(value, "messages")), ToNumberOf(value))
    + ItemNodes(Status, AsList(Get(value, "statuses")), ToNumberOf(value))
  }

  function EntryNodes(entry: Json): seq<Node> {
    FlatMap(ChangeNodes, AsList(Get(AsDict(entry), "changes")))
  }

  function Nodes(payload: Json): seq<Node> {
    FlatMap(EntryNodes, AsList(Get(AsDict(payload), "entry")))
  }

  /** What `make` turns the nodes that carry an id into, in the same order. */
  function Events<E>(make: Node -> E, nodes: seq<Node>): seq<E> {
    if nodes == [] then []
    else Events(make, nodes[..|nodes| - 1]) + if HasId(nodes[|nodes| - 1]) then [make(nodes[|nodes| - 1])] else []
  }

  predicate HasId(node: Node) {
    Truthy(Get(node.fields, "id"))
  }

  lemma EventsNext<E>(make: Node -> E, nodes: seq<Node>, node: Node)
    ensures Events(make, nodes + [node]) == Events(make, nodes) + if HasId(node) then [make(node)] else []
  {
    assert (nodes + [node])[..|nodes|] == nodes;
  }

  lemma {:induction false} EventsConcat<E>(make: Node -> E, xs: seq<Node>, ys: seq<Node>)
    ensures Events(make, xs + ys) == Events(make, xs) + Events(make, ys)
  {
    if ys == [] {
      assert xs + ys == xs;
    } else {
      var n := |ys| - 1;
      assert (xs + ys)[..|xs + ys| - 1] == xs + ys[..n];
      EventsConcat(make, xs, ys[..n]);
    }
  }

  lemma {:induction false} FlatMapConcat<A, B>(f: A -> seq<B>, xs: seq<A>, ys: seq<A>)
    ensures FlatMap(f, xs + ys) == FlatMap(f, xs) + FlatMap(f, ys)
  {
    if ys == [] {
      assert xs + ys == xs;
    } else {
      var n := |ys| - 1;
      assert (xs + ys)[..|xs + ys| - 1] == xs + ys[..n];
      FlatMapConcat(f, xs, ys[..n]);
    }
  }

  lemma FlatMapNext<A, B>(f: A -> seq<B>, xs: seq<A>, i: nat)
    requires i < |xs|
    ensures FlatMap(f, xs[..i + 1]) == FlatMap(f, xs[..i]) + f(xs[i])
  {
    assert xs[..i + 1][..i] == xs[..i];
  }

  // ----- the loops -----

  function ItemNodes(kind: Kind, items: seq<Json>, toNumber: Json): seq<Node> {
    FlatMap(Listed(kind, toNumber), items)
  }

  lemma ItemsNext<E>(make: Node -> E, kind: Kind, items: seq<Json>, toNumber: Json, i: nat)
    requires i < |items|
    ensures var node := Node(kind, AsDict(items[i]), toNumber);
      Events(make, ItemNodes(kind, items[..i + 1], toNumber))
      == Events(make, ItemNodes(kind, items[..i], toNumber)) + if HasId(node) then [make(node)] else []
  {
    FlatMapNext(Listed(kind, toNumber), items, i);
    EventsNext(make, ItemNodes(kind, items[..i], toNumber), Node(kind, AsDict(items[i]), toNumber));
  }

  /** The innermost loop, over the messages or the statuses of one change. */
  method AppendItems<E>(before: seq<E>, make: Node -> E, kind: Kind, items: seq<Json>, toNumber: Json)
    returns (events: seq<E>)
    ensures events == before + Events(make, ItemNodes(kind, items, toNumber))
  {
    events := before;
    for i := 0 to |items|
      invariant events == before + Events(make, ItemNodes(kind, items[..i], toNumber))
    {
      ItemsNext(make, kind, items, toNumber, i);
      var fields := AsDict(items[i]);
      var id := Get(fields, "id");
      if !Truthy(id) {
        continue;
      }
      events := events + [make(Node(kind, fields, toNumber))];
    }
    assert items[..|items|] == items;
  }

  lemma EventsOfFour<E>(make: Node -> E, ws: seq<Node>, xs: seq<Node>, ys: seq<Node>, zs: seq<Node>)
    ensures Events(make, ws + (xs + (ys + zs))) == Events(make, ws + xs) + Events(make, ys) + Events(make, zs)
  {
    assert ws + (xs + (ys + zs)) == ws + xs + (ys + zs);
    EventsConcat(make, ws + xs, ys + zs);
    EventsConcat(make, ys, zs);
  }

  lemma ChangesNext<E>(make: Node -> E, past: seq<Node>, changes: seq<Json>, j: nat)
    requires j < |changes|
    ensures var value := ValueOf(changes[j]);
      Events(make, past + FlatMap(ChangeNodes, changes[..j + 1]))
      == Events(make, past + FlatMap(ChangeNodes, changes[..j]))
         + Events(make, ItemNodes(Message, AsList(Get(value, "messages")), ToNumberOf(value)))
         + Events(make, ItemNodes(Status, AsList(Get(value, "statuses")), ToNumberOf(value)))
  {
    var value := ValueOf(changes[j]);
    FlatMapNext(ChangeNodes, changes, j);
    EventsOfFour(make, past, FlatMap(ChangeNodes, changes[..j]),
                 ItemNodes(Message, AsList(Get(value, "messages")), ToNumberOf(value)),
                 ItemNodes(Status, AsList(Get(value, "statuses")), ToNumberOf(value)));
  }

  /** extract_events: the nested loops append exactly the events of the reference. */
  method ExtractEvents(payload: Json) returns (events: seq<NormalizedEvent>)
    ensures events == Events(EventFor, Nodes(payload))
  {
    events := [];
    var entries := AsList(Get(AsDict(payload), "entry"));
    for i := 0 to |entries|
      invariant events == Events(EventFor, FlatMap(EntryNodes, entries[..i]))
    {
      ghost var past := FlatMap(EntryNodes, entries[..i]);
      var changes := AsList(Get(AsDict(entries[i]), "changes"));
      assert past + FlatMap(ChangeNodes, changes[..0]) == past;
      for j := 0 to |changes|
        invariant events == Events(EventFor, past + FlatMap(ChangeNodes, changes[..j]))
      {
        var value := AsDict(Get(AsDict(changes[j]), "value"));
        var toNumber := Get(AsDict(Get(value, "metadata")), "display_phone_number");
        ChangesNext(EventFor, past, changes, j);
        events := AppendItems(events, EventFor, Message, AsList(Get(value, "messages")), toNumber);
        events := AppendItems(events, EventFor, Status, AsList(Get(value, "statuses")), toNumber);
      }
      assert changes[..|changes|] == changes;
      FlatMapNext(EntryNodes, entries, i);
    }
    assert entries[..|entries|] == entries;
  }

  // ----- one event per node with an id -----

  /** Where the k-th node with an id stands among all nodes. */
  function IdRank(nodes: seq<Node>, at: nat): nat
    requires at <= |nodes|
  {
    if at == 0 then 0 else IdRank(nodes, at - 1) + if HasId(nodes[at - 1]) then 1 else 0
  }

  /** The node at `at`, if it has an id, yields the event at its rank; there are no other events. */
  lemma {:induction false} OneEventPerNode<E>(make: Node -> E, nodes: seq<Node>, at: nat)
    requires at < |nodes|
    ensures |Events(make, nodes)| == IdRank(nodes, |nodes|)
    ensures HasId(nodes[at]) ==>
      IdRank(nodes, at) < |Events(make, nodes)| && Events(make, nodes)[IdRank(nodes, at)] == make(nodes[at])
  {
    var n := |nodes| - 1;
    RankPrefix(nodes, n, n);
    RankPrefix(nodes, n, at);
    if n > 0 {
      OneEventPerNode(make, nodes[..n], if at < n then at else 0);
    }
  }

  lemma {:induction false} RankPrefix(nodes: seq<Node>, n: nat, at: nat)
    requires at <= n <= |nodes|
    ensures IdRank(nodes[..n], at) == IdRank(nodes, at)
  {
    if at > 0 {
      RankPrefix(nodes, n, at - 1);
    }
  }

  // ----- nothing is lost -----

  /** The node an event was made from: the event carries the whole fragment. */
  function NodeOf(e: NormalizedEvent): Node {
    Node(e.eventType, e.raw, e.toNumber)
  }

  function ReadBack(events: seq<NormalizedEvent>): seq<Node> {
    if events == [] then [] else ReadBack(events[..|events| - 1]) + [NodeOf(events[|events| - 1])]
  }

  function WithId(nodes: seq<Node>): seq<Node> {
    if nodes == [] then []
    else WithId(nodes[..|nodes| - 1]) + if HasId(nodes[|nodes| - 1]) then [nodes[|nodes| - 1]] else []
  }

  /** An event's derived fields say what its own fragment says, and its id can be used as a key. */
  predicate Agrees(e: NormalizedEvent) {
    && Truthy(e.messageId) && e.messageId == Get(e.raw, "id") && e.timestamp == Get(e.raw, "timestamp")
    && e.fromNumber == Get(e.raw, if e.eventType.Message? then "from" else "recipient_id")
    && (e.eventType.Message? ==> e.messageType == Get(e.raw, "type") && e.text == ExtractText(e.raw))
    && (e.eventType.Status? ==> e.status == Get(e.raw, "status"))
  }

  /**
    Round trip: from the extracted events the nodes with an id can be read back,
    all of them, in order, whole; and each event agrees with the node it came from.
   */
  lemma {:induction false} EventsLoseNothing(nodes: seq<Node>)
    ensures ReadBack(Events(EventFor, nodes)) == WithId(nodes)
    ensures forall e :: e in Events(EventFor, nodes) ==> Agrees(e)
  {
    if nodes != [] {
      var n := |nodes| - 1;
      var before := Events(EventFor, nodes[..n]);
      EventsLoseNothing(nodes[..n]);
      if HasId(nodes[n]) {
        assert (before + [EventFor(nodes[n])])[..|before|] == before;
      } else {
        assert Events(EventFor, nodes) == before;
      }
    }
  }

  // ----- junk among the siblings -----

  /** The objects of a list; everything else in it is junk. */
  function Dicts(items: seq<Json>): seq<Json> {
    if items == [] then []
    else Dicts(items[..|items| - 1]) + if items[|items| - 1].Obj? then [items[|items| - 1]] else []
  }

  lemma {:induction false} DictsConcat(xs: seq<Json>, ys: seq<Json>)
    ensures Dicts(xs + ys) == Dicts(xs) + Dicts(ys)
  {
    if ys == [] {
      assert xs + ys == xs;
    } else {
      var n := |ys| - 1;
      assert (xs + ys)[..|xs + ys| - 1] == xs + ys[..n];
      DictsConcat(xs, ys[..n]);
    }
  }

  function Replaced(fields: Dict, key: string, items: seq<Json>): Dict {
    if key in fields && fields[key].Arr? then fields[key := Arr(items)] else fields
  }

  function Each(f: Json -> Json, items: seq<Json>): seq<Json> {
    seq(|items|, i requires 0 <= i < |items| => f(items[i]))
  }

  /** The payload without the junk at any list level of the walk. */
  function Clean(payload: Json): Json {
    if !payload.Obj? then payload
    else Obj(Replaced(payload.fields, "entry", Each(CleanEntry, Dicts(AsList(Get(payload.fields, "entry"))))))
  }

  function CleanEntry(entry: Json): Json {
    if !entry.Obj? then entry
    else Obj(Replaced(entry.fields, "changes", Each(CleanChange, Dicts(AsList(Get(entry.fields, "changes"))))))
  }

  function CleanChange(change: Json): Json {
    if !change.Obj? || !Get(change.fields, "value").Obj? then change
    else Obj(change.fields["value" := Obj(CleanValue(change.fields["value"].fields))])
  }

  function CleanValue(value: Dict): Dict {
    var messages := Replaced(value, "messages", Dicts(AsList(Get(value, "messages"))));
    Replaced(messages, "statuses", Dicts(AsList(Get(value, "statuses"))))
  }

  lemma ReplacedGet(fields: Dict, key: string, items: seq<Json>)
    requires AsList(Get(fields, key)) == [] ==> items == []
    ensures AsList(Get(Replaced(fields, key, items), key)) == items
    ensures forall k :: k != key ==> Get(Replaced(fields, key, items), k) == Get(fields, k)
  {
  }

  lemma EachNext(f: Json -> Json, items: seq<Json>, item: Json)
    ensures Each(f, items + [item]) == Each(f, items) + [f(item)]
  {
  }

  /** Dropping the junk of a list, and cleaning what is left, does not change the events. */
  lemma {:induction false} CleanListKeepsEvents<E>(make: Node -> E, f: Json -> seq<Node>, clean: Json -> Json,
                                                   items: seq<Json>)
    requires forall i :: 0 <= i < |items| && items[i].Obj? ==>
      Events(make, f(items[i])) == Events(make, f(clean(items[i])))
    requires forall i :: 0 <= i < |items| && !items[i].Obj? ==> Events(make, f(items[i])) == []
    ensures Events(make, FlatMap(f, items)) == Events(make, FlatMap(f, Each(clean, Dicts(items))))
  {
    if items == [] { return; }
    var n := |items| - 1;
    var before, item := items[..n], items[n];
    CleanListKeepsEvents(make, f, clean, before);
    EventsConcat(make, FlatMap(f, before), f(item));
    if item.Obj? {
      var cleaned := Each(clean, Dicts(before));
      EachNext(clean, Dicts(before), item);
      assert (cleaned + [clean(item)])[..|cleaned|] == cleaned;
      EventsConcat(make, FlatMap(f, cleaned), f(clean(item)));
    } else {
      assert Dicts(items) == Dicts(before);
    }
  }

  function Same(item: Json): Json {
    item
  }

  lemma CleanItemsKeepEvents<E>(make: Node -> E, kind: Kind, toNumber: Json, items: seq<Json>)
    ensures Events(make, ItemNodes(kind, items, toNumber)) == Events(make, ItemNodes(kind, Dicts(items), toNumber))
  {
    forall i | 0 <= i < |items| && !items[i].Obj? ensures Events(make, Listed(kind, toNumber)(items[i])) == [] {
      assert Listed(kind, toNumber)(items[i]) == [] + [Node(kind, map[], toNumber)];
      EventsNext(make, [], Node(kind, map[], toNumber));
    }
    CleanListKeepsEvents(make, Listed(kind, toNumber), Same, items);
    assert Each(Same, Dicts(items)) == Dicts(items);
  }

  lemma CleanChangeKeepsEvents<E>(make: Node -> E, change: Json)
    ensures Events(make, ChangeNodes(change)) == Events(make, ChangeNodes(CleanChange(change)))
  {
    if change.Obj? && Get(change.fields, "value").Obj? {
      var value := ValueOf(change);
      var messages, statuses := AsList(Get(value, "messages")), AsList(Get(value, "statuses"));
      var half := Replaced(value, "messages", Dicts(messages));
      var whole := Replaced(half, "statuses", Dicts(statuses));
      ReplacedGet(value, "messages", Dicts(messages));
      ReplacedGet(half, "statuses", Dicts(statuses));
      assert ValueOf(CleanChange(change)) == whole;
      ChangeEvents(make, change);
      ChangeEvents(make, CleanChange(change));
      CleanItemsKeepEvents(make, Message, ToNumberOf(value), messages);
      CleanItemsKeepEvents(make, Status, ToNumberOf(value), statuses);
    }
  }

  lemma ChangeEvents<E>(make: Node -> E, change: Json)
    ensures var value := ValueOf(change);
      Events(make, ChangeNodes(change))
      == Events(make, ItemNodes(Message, AsList(Get(value, "messages")), ToNumberOf(value)))
         + Events(make, ItemNodes(Status, AsList(Get(value, "statuses")), ToNumberOf(value)))
  {
    var value := ValueOf(change);
    EventsConcat(make, ItemNodes(Message, AsList(Get(value, "messages")), ToNumberOf(value)),
                 ItemNodes(Status, AsList(Get(value, "statuses")), ToNumberOf(value)));
  }

  lemma JunkChangeHasNoEvents<E>(make: Node -> E, change: Json)
    requires !change.Obj?
    ensures Events(make, ChangeNodes(change)) == []
  {
    ChangeEvents(make, change);
  }

  function ChangesOf(entry: Json): seq<Json> {
    AsList(Get(AsDict(entry), "changes"))
  }

  lemma CleanEntryHasCleanChanges(entry: Json)
    ensures ChangesOf(CleanEntry(entry)) == Each(CleanChange, Dicts(ChangesOf(entry)))
  {
    if entry.Obj? {
      ReplacedGet(entry.fields, "changes", Each(CleanChange, Dicts(ChangesOf(entry))));
    }
  }

  lemma CleanEntryKeepsEvents<E>(make: Node -> E, entry: Json)
    ensures Events(make, EntryNodes(entry)) == Events(make, EntryNodes(CleanEntry(entry)))
  {
    var changes := ChangesOf(entry);
    forall i | 0 <= i < |changes|
      ensures Events(make, ChangeNodes(changes[i])) == Events(make, ChangeNodes(CleanChange(changes[i])))
      ensures !changes[i].Obj? ==> Events(make, ChangeNodes(changes[i])) == []
    {
      CleanChangeKeepsEvents(make, changes[i]);
      if !changes[i].Obj? {
        JunkChangeHasNoEvents(make, changes[i]);
      }
    }
    CleanListKeepsEvents(make, ChangeNodes, CleanChange, changes);
    CleanEntryHasCleanChanges(entry);
  }

  /**
    Junk does not matter: with everything that is not an object taken out of the
    entry, changes, messages and statuses lists, the payload yields the same
    events. So inserting nulls or values of the wrong type changes nothing.
   */
  lemma {:induction false} JunkIsIgnored(payload: Json)
    ensures Events(EventFor, Nodes(payload)) == Events(EventFor, Nodes(Clean(payload)))
  {
    var entries := AsList(Get(AsDict(payload), "entry"));
    forall i | 0 <= i < |entries|
      ensures Events(EventFor, EntryNodes(entries[i])) == Events(EventFor, EntryNodes(CleanEntry(entries[i])))
    {
      CleanEntryKeepsEvents(EventFor, entries[i]);
    }
    CleanListKeepsEvents(EventFor, EntryNodes, CleanEntry, entries);
    if payload.Obj? {
      ReplacedGet(payload.fields, "entry", Each(CleanEntry, Dicts(entries)));
    }
  }

  /** Payloads that are the same once their junk is taken out yield the same events. */
  lemma {:induction false} SameUpToJunk(payload: Json, other: Json)
    requires Clean(payload) == Clean(other)
    ensures Events(EventFor, Nodes(payload)) == Events(EventFor, Nodes(other))
  {
    JunkIsIgnored(payload);
    JunkIsIgnored(other);
  }

  /** Inserting junk into a list leaves its objects, and so the cleaned payload, alone. */
  lemma {:induction false} InsertedJunkIsDropped(xs: seq<Json>, junk: seq<Json>, ys: seq<Json>)
    requires forall i :: 0 <= i < |junk| ==> !junk[i].Obj?
    ensures Dicts(xs + junk + ys) == Dicts(xs + ys)
    decreases |junk|
  {
    DictsConcat(xs + junk, ys);
    DictsConcat(xs, ys);
    if junk == [] {
      assert xs + junk == xs;
    } else {
      var n := |junk| - 1;
      assert (xs + junk)[..|xs + junk| - 1] == xs + junk[..n];
      InsertedJunkIsDropped(xs, junk[..n], []);
      DictsConcat(xs + junk[..n], []);
      DictsConcat(xs, []);
    }
  }

  // ----- junk inserted into a payload -----

  /** A list of the walk: the entries, an entry's changes, or the messages or statuses of a change. */
  datatype Place = Entries | Changes(i: nat) | Items(kind: Kind, i: nat, j: nat)

  function InsertInto(items: seq<Json>, at: nat, junk: seq<Json>): seq<Json> {
    if at <= |items| then items[..at] + junk + items[at..] else items
  }

  function ItemsKey(kind: Kind): string {
    if kind.Message? then "messages" else "statuses"
  }

  /** Edit the list under `key`, if there is one. */
  function EditList(value: Json, key: string, edit: seq<Json> -> seq<Json>): Json {
    if value.Obj? then Obj(Replaced(value.fields, key, edit(AsList(Get(value.fields, key))))) else value
  }

  /** Edit the object at `i`, if there is one. */
  function EditAt(items: seq<Json>, i: nat, edit: Json -> Json): seq<Json> {
    if i < |items| then items[i := edit(items[i])] else items
  }

  function InsertIntoItems(change: Json, kind: Kind, at: nat, junk: seq<Json>): Json {
    if !change.Obj? || !Get(change.fields, "value").Obj? then change
    else
      var value := EditList(change.fields["value"], ItemsKey(kind), items => InsertInto(items, at, junk));
      Obj(change.fields["value" := value])
  }

  function InsertIntoEntry(entry: Json, place: Place, at: nat, junk: seq<Json>): Json {
    match place
    case Entries => entry
    case Changes(_) => EditList(entry, "changes", items => InsertInto(items, at, junk))
    case Items(kind, _, j) =>
      EditList(entry, "changes", items => EditAt(items, j, change => InsertIntoItems(change, kind, at, junk)))
  }

  /** The payload with `junk` put before position `at` of the list at `place`, where there is one. */
  function Insert(payload: Json, place: Place, at: nat, junk: seq<Json>): Json {
    match place
    case Entries => EditList(payload, "entry", items => InsertInto(items, at, junk))
    case Changes(i) =>
      EditList(payload, "entry", items => EditAt(items, i, entry => InsertIntoEntry(entry, place, at, junk)))
    case Items(_, i, _) =>
      EditList(payload, "entry", items => EditAt(items, i, entry => InsertIntoEntry(entry, place, at, junk)))
  }

  predicate Junk(items: seq<Json>) {
    forall i :: 0 <= i < |items| ==> !items[i].Obj?
  }

  lemma JunkIntoList(items: seq<Json>, at: nat, junk: seq<Json>)
    requires Junk(junk)
    ensures Dicts(InsertInto(items, at, junk)) == Dicts(items)
  {
    if at <= |items| {
      InsertedJunkIsDropped(items[..at], junk, items[at..]);
      assert items[..at] + items[at..] == items;
    }
  }

  /** Replacing an object by one that cleans to the same leaves the cleaned list as it was. */
  lemma {:induction false} EditKeepsCleaned(clean: Json -> Json, edit: Json -> Json, items: seq<Json>, i: nat)
    requires forall item: Json :: edit(item).Obj? <==> item.Obj?
    requires forall item: Json :: clean(edit(item)) == clean(item)
    ensures Each(clean, Dicts(EditAt(items, i, edit))) == Each(clean, Dicts(items))
    decreases |items|
  {
    if i < |items| {
      var n := |items| - 1;
      var edited := EditAt(items, i, edit);
      var last := if i == n then edit(items[n]) else items[n];
      assert edited[..n] == EditAt(items[..n], i, edit) && edited[n] == last;
      EditKeepsCleaned(clean, edit, items[..n], i);
      if last.Obj? {
        EachNext(clean, Dicts(edited[..n]), last);
        EachNext(clean, Dicts(items[..n]), items[n]);
      } else {
        assert Dicts(edited) == Dicts(edited[..n]) && Dicts(items) == Dicts(items[..n]);
      }
    }
  }

  lemma JunkIntoItems(change: Json, kind: Kind, at: nat, junk: seq<Json>)
    requires Junk(junk)
    ensures CleanChange(InsertIntoItems(change, kind, at, junk)) == CleanChange(change)
    ensures InsertIntoItems(change, kind, at, junk).Obj? <==> change.Obj?
  {
    if change.Obj? && Get(change.fields, "value").Obj? {
      var value := change.fields["value"].fields;
      var items := AsList(Get(value, ItemsKey(kind)));
      JunkIntoList(items, at, junk);
      CleanValueKeepsEdit(value, kind, InsertInto(items, at, junk));
      var edited := Replaced(value, ItemsKey(kind), InsertInto(items, at, junk));
      assert change.fields["value" := Obj(edited)]["value" := Obj(CleanValue(edited))]
          == change.fields["value" := Obj(CleanValue(edited))];
    }
  }

  lemma ReplacedTwice(fields: Dict, key: string, first: seq<Json>, second: seq<Json>)
    ensures Replaced(Replaced(fields, key, first), key, second) == Replaced(fields, key, second)
  {
  }

  lemma ReplacedElsewhere(fields: Dict, key: string, first: seq<Json>, other: string, second: seq<Json>)
    requires key != other
    ensures Replaced(Replaced(fields, key, first), other, second)
         == Replaced(Replaced(fields, other, second), key, first)
    ensures Get(Replaced(fields, key, first), other) == Get(fields, other)
  {
  }

  lemma CleanValueKeepsEdit(value: Dict, kind: Kind, items: seq<Json>)
    requires Dicts(items) == Dicts(AsList(Get(value, ItemsKey(kind))))
    ensures CleanValue(Replaced(value, ItemsKey(kind), items)) == CleanValue(value)
  {
    var messages, statuses := Dicts(AsList(Get(value, "messages"))), Dicts(AsList(Get(value, "statuses")));
    var edited := Replaced(value, ItemsKey(kind), items);
    CleanLists(value, messages, statuses);
    if kind.Message? {
      ReplacedElsewhere(value, "messages", items, "statuses", statuses);
      ReplacedTwice(value, "messages", items, messages);
    } else {
      ReplacedElsewhere(value, "statuses", items, "messages", messages);
      ReplacedTwice(Replaced(value, "messages", messages), "statuses", items, statuses);
    }
    CleanLists(edited, messages, statuses);
  }

  /** Cleaning a value, given what its lists clean to; a list that is not there does not matter. */
  lemma CleanLists(value: Dict, messages: seq<Json>, statuses: seq<Json>)
    requires Get(value, "messages").Arr? ==> Dicts(Get(value, "messages").items) == messages
    requires Get(value, "statuses").Arr? ==> Dicts(Get(value, "statuses").items) == statuses
    ensures CleanValue(value) == Replaced(Replaced(value, "messages", messages), "statuses", statuses)
  {
  }

  lemma JunkIntoEntry(entry: Json, place: Place, at: nat, junk: seq<Json>)
    requires Junk(junk)
    ensures CleanEntry(InsertIntoEntry(entry, place, at, junk)) == CleanEntry(entry)
    ensures InsertIntoEntry(entry, place, at, junk).Obj? <==> entry.Obj?
  {
    if entry.Obj? {
      var changes := AsList(Get(entry.fields, "changes"));
      match place
      case Entries =>
      case Changes(_) =>
        JunkIntoList(changes, at, junk);
        CleanListKeepsEdit(entry.fields, "changes", CleanChange, InsertInto(changes, at, junk));
      case Items(kind, _, j) =>
        var edit := (change: Json) => InsertIntoItems(change, kind, at, junk);
        forall change: Json
          ensures CleanChange(edit(change)) == CleanChange(change) && (edit(change).Obj? <==> change.Obj?)
        {
          JunkIntoItems(change, kind, at, junk);
        }
        EditKeepsCleaned(CleanChange, edit, changes, j);
        CleanListKeepsEdit(entry.fields, "changes", CleanChange, EditAt(changes, j, edit));
    }
  }

  /** A list edited to one that cleans to the same: cleaning the object gives the same. */
  lemma CleanListKeepsEdit(fields: Dict, key: string, clean: Json -> Json, items: seq<Json>)
    requires Each(clean, Dicts(items)) == Each(clean, Dicts(AsList(Get(fields, key))))
    ensures var edited := Replaced(fields, key, items);
      Replaced(edited, key, Each(clean, Dicts(AsList(Get(edited, key)))))
      == Replaced(fields, key, Each(clean, Dicts(AsList(Get(fields, key)))))
  {
  }

  lemma JunkIntoPayload(payload: Json, place: Place, at: nat, junk: seq<Json>)
    requires Junk(junk)
    ensures Clean(Insert(payload, place, at, junk)) == Clean(payload)
  {
    if payload.Obj? {
      var entries := AsList(Get(payload.fields, "entry"));
      if place.Entries? {
        JunkIntoList(entries, at, junk);
        CleanListKeepsEdit(payload.fields, "entry", CleanEntry, InsertInto(entries, at, junk));
      } else {
        var edit := (entry: Json) => InsertIntoEntry(entry, place, at, junk);
        forall entry: Json ensures CleanEntry(edit(entry)) == CleanEntry(entry) && (edit(entry).Obj? <==> entry.Obj?) {
          JunkIntoEntry(entry, place, at, junk);
        }
        EditKeepsCleaned(CleanEntry, edit, entries, place.i);
        CleanListKeepsEdit(payload.fields, "entry", CleanEntry, EditAt(entries, place.i, edit));
      }
    }
  }

  /**
    Nulls and values of the wrong type, inserted anywhere into any list the walk
    goes through, leave the extracted events as they were.
   */
  lemma {:induction false} InsertedJunkChangesNothing(payload: Json, place: Place, at: nat, junk: seq<Json>)
    requires Junk(junk)
    ensures Events(EventFor, Nodes(Insert(payload, place, at, junk))) == Events(EventFor, Nodes(payload))
  {
    JunkIntoPayload(payload, place, at, junk);
    SameUpToJunk(Insert(payload, place, at, junk), payload);
  }
}
