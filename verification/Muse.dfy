/** One Muse turn: a reader task that sees the wire in order, and a prompting coroutine that learns
    its turn id from the `turn/start` acknowledgement and is resumed at some later moment. Events
    that arrive before it resumes are buffered and handled then. */
module Muse {
  import opened Wrappers

  datatype Item = Item(
    id: string, turnId: Option<string>, revision: int, kind: string, status: string, text: string,
    tool: string)

  /** The notifications `_event` tells apart. A `wellFormed` or `durable` flag stands for the type
      checks the handler makes on a payload. */
  datatype Body =
    | ModeChanged(mode: string)
    | Gap
    | Delta(itemId: string, isText: bool, delta: Option<string>)
    | ItemUpdate(name: string, item: Item, wellFormed: bool)
    | TokenUsage(model: Option<string>, counters: seq<int>)
    | Completed(terminal: string, durable: bool, wellFormed: bool)
    | Unhandled(name: string)

  datatype Event = Event(
    sessionId: string, turnId: Option<string>, cursor: Option<string>, body: Body)

  datatype Capture = Capture(
    text: seq<string>, thoughts: nat, toolCalls: seq<(string, string, string)>, usage: seq<seq<int>>,
    models: seq<string>, rawUpdates: nat)

  /** What one turn accumulates. `items` keeps insertion order; an event seen with a cursor is
      remembered whole, since a cursor alone does not identify it. */
  datatype Turn = Turn(
    items: seq<Item>, seen: set<Event>, capture: Capture, terminal: Option<Body>,
    completed: Option<Body>, settled: bool)

  const FRESH := Turn([], {}, Capture([], 0, [], [], [], 0), None, None, false)

  datatype Error = ProtocolError

  datatype Context = Context(sessionId: string, turnId: string)

  // -- the handler --------------------------------------------------------------------------

  function Lookup(items: seq<Item>, id: string): (index: Option<nat>)
    ensures index.Some? ==> index.value < |items| && items[index.value].id == id
    ensures index == None ==> forall k :: 0 <= k < |items| ==> items[k].id != id
  {
    if items == [] then None
    else if items[|items| - 1].id == id then Some(|items| - 1)
    else Lookup(items[..|items| - 1], id)
  }

  function Texts(items: seq<Item>): seq<string> {
    if items == [] then []
    else Texts(items[..|items| - 1]) +
         (if items[|items| - 1].kind == "agentMessage" then [items[|items| - 1].text] else [])
  }

  /** An update is stored when the item is new or its revision is later. */
  function Stored(items: seq<Item>, item: Item): seq<Item> {
    match Lookup(items, item.id)
    case None => items + [item]
    case Some(k) => if item.revision > items[k].revision then items[k := item] else items
  }

  function AppendDelta(items: seq<Item>, id: string, isText: bool, delta: Option<string>)
    : Result<seq<Item>, Error>
  {
    match Lookup(items, id)
    case None => Success(items)
    case Some(k) =>
      if items[k].kind != "agentMessage" || !isText then Success(items)
      else if delta == None then Failure(ProtocolError)
      else Success(items[k := items[k].(text := items[k].text + delta.value)])
  }

  function Counted(t: Turn): Turn {
    t.(capture := t.capture.(rawUpdates := t.capture.rawUpdates + 1))
  }

  function WithItems(t: Turn, items: seq<Item>): Turn {
    t.(items := items, capture := t.capture.(text := Texts(items)))
  }

  function HandleItem(ctx: Context, t: Turn, item: Item, wellFormed: bool): Result<Turn, Error> {
    if item.turnId != Some(ctx.turnId) then Success(t)
    else if !wellFormed || item.revision < 1 then Failure(ProtocolError)
    else if item.kind in {"subagent", "workflow"} then Failure(ProtocolError)
    else
      var isNew := Lookup(t.items, item.id) == None;
      var c := t.capture;
      var c' := c.(
        thoughts := if item.kind == "reasoning" && isNew then c.thoughts + 1 else c.thoughts,
        toolCalls := if item.kind == "toolCall" then c.toolCalls + [(item.id, item.tool, item.status)]
                     else c.toolCalls);
      Success(Counted(WithItems(t.(capture := c'), Stored(t.items, item))))
  }

  function HandleTurnEvent(t: Turn, e: Event): Result<Turn, Error> {
    match e.body
    case TokenUsage(model, counters) =>
      if exists k :: 0 <= k < |counters| && counters[k] < 0 then Failure(ProtocolError)
      else
        var c := t.capture;
        var models := if model.Some? && model.value !in c.models then c.models + [model.value] else c.models;
        Success(Counted(t.(capture := c.(usage := c.usage + [counters], models := models))))
    case Completed(terminal, durable, wellFormed) =>
      if e.cursor == None || !durable || !wellFormed then Failure(ProtocolError)
      else
        var first := t.terminal == None;
        Success(Counted(t.(
          terminal := if first then Some(e.body) else t.terminal,
          settled := if first then terminal in {"completed", "cancelled", "failed"} else t.settled,
          completed := Some(e.body))))
    case _ => Success(Counted(t))
  }

  /** `_event`. */
  function Handle(ctx: Context, t: Turn, e: Event): Result<Turn, Error> {
    if e.sessionId != ctx.sessionId then Success(t)
    else if e.cursor.Some? && e in t.seen then Success(t)
    else
      var t := if e.cursor.Some? then t.(seen := t.seen + {e}) else t;
      if e.body.ModeChanged? && e.body.mode != "denyUnmatched" then Failure(ProtocolError)
      else if e.body.Gap? then Failure(ProtocolError)
      else if e.body.Delta? then
        match AppendDelta(t.items, e.body.itemId, e.body.isText, e.body.delta)
        case Success(items) => Success(Counted(WithItems(t, items)))
        case Failure(error) => Failure(error)
      else if e.body.ItemUpdate? then HandleItem(ctx, t, e.body.item, e.body.wellFormed)
      else if e.turnId != Some(ctx.turnId) then Success(t)
      else HandleTurnEvent(t, e)
  }

  /** Handling a list of events in order, stopping at the first protocol error. */
  function HandleAll(ctx: Context, t: Turn, events: seq<Event>): Result<Turn, Error>
    decreases |events|
  {
    if events == [] then Success(t)
    else
      match HandleAll(ctx, t, events[..|events| - 1])
      case Success(t') => Handle(ctx, t', events[|events| - 1])
      case Failure(error) => Failure(error)
  }

  lemma {:induction false} HandleConcat(ctx: Context, t: Turn, a: seq<Event>, b: seq<Event>)
    ensures HandleAll(ctx, t, a + b) ==
            match HandleAll(ctx, t, a)
            case Success(t') => HandleAll(ctx, t', b)
            case Failure(error) => Failure(error)
    decreases |b|
  {
    if b == [] {
      assert a + b == a;
    } else {
      assert (a + b)[..|a + b| - 1] == a + b[..|b| - 1];
      HandleConcat(ctx, t, a, b[..|b| - 1]);
    }
  }

  lemma HandleOne(ctx: Context, t: Turn, e: Event)
    ensures HandleAll(ctx, t, [e]) == Handle(ctx, t, e)
  {
    assert [e][..0] == [] && HandleAll(ctx, t, []) == Success(t);
    hide Handle;
  }

  // -- what handling keeps ----------------------------------------------------------------------

  /** A turn only moves forward: nothing seen is forgotten, items keep their place and never lose a
      revision, and the first terminal report stands. */
  predicate Forward(a: Turn, b: Turn) {
    && a.seen <= b.seen
    && |a.items| <= |b.items|
    && (forall k :: 0 <= k < |a.items| ==>
          a.items[k].id == b.items[k].id && a.items[k].revision <= b.items[k].revision)
    && (a.terminal.Some? ==> b.terminal == a.terminal && b.settled == a.settled)
    && a.capture.rawUpdates <= b.capture.rawUpdates
    && a.capture.toolCalls <= b.capture.toolCalls && a.capture.usage <= b.capture.usage
  }

  lemma StoringMovesForward(items: seq<Item>, item: Item)
    ensures var stored := Stored(items, item);
            && |items| <= |stored|
            && forall k :: 0 <= k < |items| ==>
                 items[k].id == stored[k].id && items[k].revision <= stored[k].revision
  {
  }

  lemma HandleMovesForward(ctx: Context, t: Turn, e: Event)
    requires Handle(ctx, t, e).Success?
    ensures Forward(t, Handle(ctx, t, e).value)
  {
    if e.sessionId == ctx.sessionId && !(e.cursor.Some? && e in t.seen) {
      var marked := if e.cursor.Some? then t.(seen := t.seen + {e}) else t;
      if e.body.ItemUpdate? {
        ItemMovesForward(ctx, marked, e.body.item, e.body.wellFormed);
      } else if !e.body.Delta? && e.turnId == Some(ctx.turnId) {
        hide Stored, AppendDelta, Texts, Lookup;
        TurnEventMovesForward(marked, e);
      }
    }
  }

  lemma ItemMovesForward(ctx: Context, t: Turn, item: Item, wellFormed: bool)
    requires HandleItem(ctx, t, item, wellFormed).Success?
    ensures Forward(t, HandleItem(ctx, t, item, wellFormed).value)
  {
    StoringMovesForward(t.items, item);
  }

  lemma TurnEventMovesForward(t: Turn, e: Event)
    requires HandleTurnEvent(t, e).Success?
    ensures Forward(t, HandleTurnEvent(t, e).value)
  {
  }

  lemma {:induction false} TurnsMoveForward(ctx: Context, t: Turn, events: seq<Event>)
    requires HandleAll(ctx, t, events).Success?
    ensures Forward(t, HandleAll(ctx, t, events).value)
    decreases |events|
  {
    if events != [] {
      var front := events[..|events| - 1];
      TurnsMoveForward(ctx, t, front);
      HandleMovesForward(ctx, HandleAll(ctx, t, front).value, events[|events| - 1]);
    }
  }

  // -- what the turn holds, read off the events alone ------------------------------------------------

  /** The event at `k` is for this session and is not a redelivery. */
  predicate Effective(ctx: Context, events: seq<Event>, k: nat)
    requires k < |events|
  {
    events[k].sessionId == ctx.sessionId && !(events[k].cursor.Some? && events[k] in events[..k])
  }

  /** And it is about this turn, or a text delta, which names only its item. */
  predicate Applies(ctx: Context, events: seq<Event>, k: nat)
    requires k < |events|
  {
    Effective(ctx, events, k) &&
    match events[k].body
    case Delta(_, _, _) => true
    case ItemUpdate(_, item, _) => item.turnId == Some(ctx.turnId)
    case _ => events[k].turnId == Some(ctx.turnId)
  }

  /** One item as its own events make it: its first update, any update of a later revision, and the text
      deltas of an agent message appended in between. */
  function ItemOf(ctx: Context, events: seq<Event>, id: string): Option<Item> {
    if events == [] then None
    else
      var n := |events| - 1;
      var before := ItemOf(ctx, events[..n], id);
      if !Applies(ctx, events, n) then before
      else match events[n].body
        case ItemUpdate(_, item, _) =>
          if item.id == id && (before == None || item.revision > before.value.revision) then Some(item) else before
        case Delta(itemId, isText, delta) =>
          if itemId == id && isText && before.Some? && before.value.kind == "agentMessage" && delta.Some?
          then Some(before.value.(text := before.value.text + delta.value)) else before
        case _ => before
  }

  /** An event no turn survives: another approval mode, a gap, a malformed delta of an agent message, a
      malformed item, delegated work, a negative counter, or an unproven end of the turn. */
  predicate Offends(ctx: Context, events: seq<Event>, k: nat)
    requires k < |events|
  {
    match events[k].body
    case ModeChanged(mode) => Effective(ctx, events, k) && mode != "denyUnmatched"
    case Gap => Effective(ctx, events, k)
    case Delta(itemId, isText, delta) =>
      var item := ItemOf(ctx, events[..k], itemId);
      Applies(ctx, events, k) && isText && delta == None && item.Some? && item.value.kind == "agentMessage"
    case ItemUpdate(_, item, wellFormed) =>
      Applies(ctx, events, k) && (!wellFormed || item.revision < 1 || item.kind == "subagent" || item.kind == "workflow")
    case TokenUsage(_, counters) =>
      Applies(ctx, events, k) && exists c :: 0 <= c < |counters| && counters[c] < 0
    case Completed(_, durable, wellFormed) =>
      Applies(ctx, events, k) && (events[k].cursor == None || !durable || !wellFormed)
    case Unhandled(_) => false
  }

  function ToolCallsIn(ctx: Context, events: seq<Event>): seq<(string, string, string)> {
    if events == [] then []
    else
      var n := |events| - 1;
      var before := ToolCallsIn(ctx, events[..n]);
      if Applies(ctx, events, n) && events[n].body.ItemUpdate? && events[n].body.item.kind == "toolCall"
      then before + [(events[n].body.item.id, events[n].body.item.tool, events[n].body.item.status)] else before
  }

  function ThoughtsIn(ctx: Context, events: seq<Event>): nat {
    if events == [] then 0
    else
      var n := |events| - 1;
      ThoughtsIn(ctx, events[..n])
      + if Applies(ctx, events, n) && events[n].body.ItemUpdate? && events[n].body.item.kind == "reasoning"
           && ItemOf(ctx, events[..n], events[n].body.item.id) == None then 1 else 0
  }

  function UsageIn(ctx: Context, events: seq<Event>): seq<seq<int>> {
    if events == [] then []
    else
      var n := |events| - 1;
      UsageIn(ctx, events[..n])
      + if Applies(ctx, events, n) && events[n].body.TokenUsage? then [events[n].body.counters] else []
  }

  function UpdatesIn(ctx: Context, events: seq<Event>): nat {
    if events == [] then 0
    else UpdatesIn(ctx, events[..|events| - 1]) + if Applies(ctx, events, |events| - 1) then 1 else 0
  }

  /** Every model named, once, in the order in which it was first named. */
  function ModelsIn(ctx: Context, events: seq<Event>): seq<string> {
    if events == [] then []
    else
      var n := |events| - 1;
      var before := ModelsIn(ctx, events[..n]);
      if Applies(ctx, events, n) && events[n].body.TokenUsage? && events[n].body.model.Some?
         && events[n].body.model.value !in before
      then before + [events[n].body.model.value] else before
  }

  function EndsIn(ctx: Context, events: seq<Event>): seq<Body> {
    if events == [] then []
    else
      var n := |events| - 1;
      EndsIn(ctx, events[..n])
      + if Applies(ctx, events, n) && events[n].body.Completed? then [events[n].body] else []
  }

  /** The turn's items, each once, are what their own events make of them. */
  ghost predicate HoldsItems(ctx: Context, events: seq<Event>, items: seq<Item>) {
    && (forall j, k :: 0 <= j < k < |items| ==> items[j].id != items[k].id)
    && (forall k :: 0 <= k < |items| ==> ItemOf(ctx, events, items[k].id) == Some(items[k]))
    && (forall id :: ItemOf(ctx, events, id).Some? ==> exists k :: 0 <= k < |items| && items[k].id == id)
  }

  ghost predicate TellsSeen(ctx: Context, events: seq<Event>, seen: set<Event>) {
    forall e :: e in seen <==> e in events && e.cursor.Some? && e.sessionId == ctx.sessionId
  }

  predicate TellsCapture(ctx: Context, events: seq<Event>, c: Capture) {
    && c.toolCalls == ToolCallsIn(ctx, events) && c.thoughts == ThoughtsIn(ctx, events)
    && c.usage == UsageIn(ctx, events) && c.models == ModelsIn(ctx, events)
    && c.rawUpdates == UpdatesIn(ctx, events)
  }

  /** The first end decides, and the last is kept too. */
  predicate TellsEnds(ctx: Context, events: seq<Event>, t: Turn) {
    var ends := EndsIn(ctx, events);
    && t.terminal == (if ends == [] then None else Some(ends[0]))
    && t.completed == (if ends == [] then None else Some(ends[|ends| - 1]))
    && (t.settled <==> ends != [] && ends[0].Completed? && ends[0].terminal in {"completed", "cancelled", "failed"})
  }

  /** The items named, once each, in the order in which they first appeared. */
  function IdsIn(ctx: Context, events: seq<Event>): seq<string> {
    if events == [] then []
    else
      var n := |events| - 1;
      var before := IdsIn(ctx, events[..n]);
      if Applies(ctx, events, n) && events[n].body.ItemUpdate? && events[n].body.item.id !in before
      then before + [events[n].body.item.id] else before
  }

  function Ids(items: seq<Item>): seq<string> {
    seq(|items|, k requires 0 <= k < |items| => items[k].id)
  }

  /** Everything the turn holds, told by the events alone. */
  ghost predicate TellsTrace(ctx: Context, events: seq<Event>, t: Turn) {
    && TellsSeen(ctx, events, t.seen) && HoldsItems(ctx, events, t.items) && t.capture.text == Texts(t.items)
    && Ids(t.items) == IdsIn(ctx, events)
    && TellsCapture(ctx, events, t.capture) && TellsEnds(ctx, events, t)
  }

  /** Where agent messages stand among the items. */
  function MessagesAt(items: seq<Item>): seq<nat> {
    if items == [] then []
    else MessagesAt(items[..|items| - 1])
         + if items[|items| - 1].kind == "agentMessage" then [|items| - 1] else []
  }

  lemma {:induction false} TextsAreMessages(items: seq<Item>)
    ensures var at := MessagesAt(items);
            && |Texts(items)| == |at|
            && (forall j :: 0 <= j < |at| ==> at[j] < |items| && Texts(items)[j] == items[at[j]].text)
            && (forall i, j :: 0 <= i < j < |at| ==> at[i] < at[j])
            && (forall k :: 0 <= k < |items| ==> (k in at <==> items[k].kind == "agentMessage"))
  {
    if items != [] {
      TextsAreMessages(items[..|items| - 1]);
    }
  }

  lemma {:induction false} LookupIsOne(items: seq<Item>, id: string, k: nat)
    requires k < |items| && items[k].id == id
    requires forall i, j :: 0 <= i < j < |items| ==> items[i].id != items[j].id
    ensures Lookup(items, id) == Some(k)
  {
    if k < |items| - 1 {
      LookupIsOne(items[..|items| - 1], id, k);
    }
  }

  /** What the turn finds of an item is what the events say. */
  lemma LookupTells(ctx: Context, events: seq<Event>, items: seq<Item>, id: string)
    requires HoldsItems(ctx, events, items)
    ensures match Lookup(items, id)
            case None => ItemOf(ctx, events, id) == None
            case Some(k) => k < |items| && items[k].id == id && ItemOf(ctx, events, id) == Some(items[k])
  {
  }

  lemma EffectiveIsUnseen(ctx: Context, events: seq<Event>, t: Turn)
    requires events != [] && TellsTrace(ctx, events[..|events| - 1], t)
    ensures var e := events[|events| - 1];
            Effective(ctx, events, |events| - 1) <==> e.sessionId == ctx.sessionId && !(e.cursor.Some? && e in t.seen)
  {
  }

  /** One more event, as the item with this id sees it. */
  lemma StoredHolds(ctx: Context, events: seq<Event>, items: seq<Item>, item: Item)
    requires events != [] && HoldsItems(ctx, events[..|events| - 1], items)
    requires Applies(ctx, events, |events| - 1) && events[|events| - 1].body.ItemUpdate?
    requires events[|events| - 1].body.item == item
    ensures HoldsItems(ctx, events, Stored(items, item))
  {
    var front := events[..|events| - 1];
    LookupTells(ctx, front, items, item.id);
    hide Applies;
    var stored := Stored(items, item);
    forall id | ItemOf(ctx, events, id).Some?
      ensures exists k :: 0 <= k < |stored| && stored[k].id == id
    {
      if id == item.id {
        var k := if Lookup(items, item.id) == None then |items| else Lookup(items, item.id).value;
        assert stored[k].id == id;
      } else {
        assert ItemOf(ctx, front, id).Some?;
        var k :| 0 <= k < |items| && items[k].id == id;
        assert stored[k].id == id;
      }
    }
    forall k | 0 <= k < |stored|
      ensures ItemOf(ctx, events, stored[k].id) == Some(stored[k])
    {
      if k < |items| && stored[k] == items[k] {
        assert ItemOf(ctx, front, items[k].id) == Some(items[k]);
      }
    }
  }

  lemma DeltaHolds(ctx: Context, events: seq<Event>, items: seq<Item>)
    requires events != [] && HoldsItems(ctx, events[..|events| - 1], items)
    requires Applies(ctx, events, |events| - 1) && events[|events| - 1].body.Delta?
    requires var e := events[|events| - 1].body; AppendDelta(items, e.itemId, e.isText, e.delta).Success?
    ensures var e := events[|events| - 1].body;
            HoldsItems(ctx, events, AppendDelta(items, e.itemId, e.isText, e.delta).value)
  {
    var front, e := events[..|events| - 1], events[|events| - 1].body;
    LookupTells(ctx, front, items, e.itemId);
    hide Applies;
    var after := AppendDelta(items, e.itemId, e.isText, e.delta).value;
    assert |after| == |items| && forall k :: 0 <= k < |items| ==> after[k].id == items[k].id;
    forall id | ItemOf(ctx, events, id).Some?
      ensures exists k :: 0 <= k < |after| && after[k].id == id
    {
      assert ItemOf(ctx, front, id).Some?;
      var k :| 0 <= k < |items| && items[k].id == id;
      assert after[k].id == id;
    }
    forall k | 0 <= k < |after|
      ensures ItemOf(ctx, events, after[k].id) == Some(after[k])
    {
      assert ItemOf(ctx, front, items[k].id) == Some(items[k]);
      if items[k].id == e.itemId {
        LookupIsOne(items, e.itemId, k);
      }
    }
  }

  /** An event that changes no item. */
  lemma OthersHold(ctx: Context, events: seq<Event>, items: seq<Item>)
    requires events != [] && HoldsItems(ctx, events[..|events| - 1], items)
    requires Applies(ctx, events, |events| - 1) ==>
               !events[|events| - 1].body.Delta? && !events[|events| - 1].body.ItemUpdate?
    ensures HoldsItems(ctx, events, items)
  {
    var front := events[..|events| - 1];
    assert forall id :: ItemOf(ctx, events, id) == ItemOf(ctx, front, id);
    hide ItemOf, Applies;
  }

  /** The handler fails on one more event exactly when that event offends. */
  lemma FailsWhenOffended(ctx: Context, events: seq<Event>, t: Turn)
    requires events != [] && TellsTrace(ctx, events[..|events| - 1], t)
    ensures Handle(ctx, t, events[|events| - 1]).Failure? <==> Offends(ctx, events, |events| - 1)
  {
    var n := |events| - 1;
    var e := events[n];
    EffectiveIsUnseen(ctx, events, t);
    if e.body.Delta? {
      LookupTells(ctx, events[..n], t.items, e.body.itemId);
    }
    hide TellsTrace, HoldsItems, ItemOf, Effective, Texts, Stored;
  }

  lemma ItemsFollow(ctx: Context, events: seq<Event>, t: Turn)
    requires events != [] && TellsTrace(ctx, events[..|events| - 1], t)
    requires Handle(ctx, t, events[|events| - 1]).Success?
    ensures HoldsItems(ctx, events, Handle(ctx, t, events[|events| - 1]).value.items)
  {
    var n := |events| - 1;
    var e := events[n];
    EffectiveIsUnseen(ctx, events, t);
    if Applies(ctx, events, n) && e.body.ItemUpdate? {
      StoredHolds(ctx, events, t.items, e.body.item);
    } else if Applies(ctx, events, n) && e.body.Delta? {
      DeltaHolds(ctx, events, t.items);
    } else {
      OthersHold(ctx, events, t.items);
    }
    hide HoldsItems, ItemOf, Effective, Texts, Stored, AppendDelta;
  }

  function Marked(t: Turn, e: Event): Turn {
    if e.cursor.Some? then t.(seen := t.seen + {e}) else t
  }

  lemma HandleByKind(ctx: Context, t: Turn, e: Event)
    requires Handle(ctx, t, e).Success?
    ensures var isNew := e.sessionId == ctx.sessionId && !(e.cursor.Some? && e in t.seen);
            var h := Handle(ctx, t, e);
            if !isNew then h == Success(t)
            else if e.body.Delta? then
              AppendDelta(t.items, e.body.itemId, e.body.isText, e.body.delta).Success?
              && h == Success(Counted(WithItems(Marked(t, e),
                   AppendDelta(t.items, e.body.itemId, e.body.isText, e.body.delta).value)))
            else if e.body.ItemUpdate? then h == HandleItem(ctx, Marked(t, e), e.body.item, e.body.wellFormed)
            else if e.turnId != Some(ctx.turnId) then h == Success(Marked(t, e))
            else h == HandleTurnEvent(Marked(t, e), e)
  {
    hide Texts, Stored, Lookup, AppendDelta, HandleTurnEvent, HandleItem;
  }

  /** Whether the event applies decides which part of the handler runs. */
  lemma HandledAs(ctx: Context, events: seq<Event>, t: Turn)
    requires events != [] && TellsTrace(ctx, events[..|events| - 1], t)
    requires Handle(ctx, t, events[|events| - 1]).Success?
    ensures var n := |events| - 1;
            var e, h := events[n], Handle(ctx, t, events[n]);
            var m := Marked(t, e);
            && (!Effective(ctx, events, n) ==> h == Success(t))
            && (Effective(ctx, events, n) && !Applies(ctx, events, n) ==> h == Success(m))
            && (Applies(ctx, events, n) && e.body.Delta? ==>
                  AppendDelta(t.items, e.body.itemId, e.body.isText, e.body.delta).Success?
                  && h == Success(Counted(WithItems(m,
                       AppendDelta(t.items, e.body.itemId, e.body.isText, e.body.delta).value))))
            && (Applies(ctx, events, n) && e.body.ItemUpdate? ==> h == HandleItem(ctx, m, e.body.item, e.body.wellFormed))
            && (Applies(ctx, events, n) && !e.body.Delta? && !e.body.ItemUpdate? ==> h == HandleTurnEvent(m, e))
  {
    hide TellsTrace, Texts, Stored, AppendDelta, Lookup, HandleTurnEvent, Handle, Marked, WithItems, Counted;
    EffectiveIsUnseen(ctx, events, t);
    HandleByKind(ctx, t, events[|events| - 1]);
    hide Effective;
  }

  lemma TurnEventKeeps(t: Turn, e: Event)
    requires HandleTurnEvent(t, e).Success?
    ensures var t' := HandleTurnEvent(t, e).value;
            && t'.seen == t.seen && t'.items == t.items && t'.capture.text == t.capture.text
            && t'.capture.toolCalls == t.capture.toolCalls && t'.capture.thoughts == t.capture.thoughts
            && t'.capture.rawUpdates == t.capture.rawUpdates + 1
            && (!e.body.TokenUsage? ==> t'.capture.usage == t.capture.usage && t'.capture.models == t.capture.models)
            && (e.body.TokenUsage? ==>
                  && t'.capture.usage == t.capture.usage + [e.body.counters]
                  && t'.capture.models == t.capture.models
                       + if e.body.model.Some? && e.body.model.value !in t.capture.models then [e.body.model.value] else [])
            && (!e.body.Completed? ==> t'.terminal == t.terminal && t'.completed == t.completed && t'.settled == t.settled)
            && (e.body.Completed? ==>
                  && t'.completed == Some(e.body)
                  && t'.terminal == (if t.terminal == None then Some(e.body) else t.terminal)
                  && t'.settled == if t.terminal == None then e.body.terminal in {"completed", "cancelled", "failed"}
                                   else t.settled)
  {
  }

  lemma ItemKeeps(ctx: Context, t: Turn, item: Item, wellFormed: bool)
    requires HandleItem(ctx, t, item, wellFormed).Success?
    requires item.turnId == Some(ctx.turnId)
    ensures var t' := HandleItem(ctx, t, item, wellFormed).value;
            && t'.seen == t.seen && t'.capture.text == Texts(t'.items)
            && t'.terminal == t.terminal && t'.completed == t.completed && t'.settled == t.settled
            && t'.capture.usage == t.capture.usage && t'.capture.models == t.capture.models
            && t'.capture.rawUpdates == t.capture.rawUpdates + 1
            && t'.capture.toolCalls == t.capture.toolCalls
                 + (if item.kind == "toolCall" then [(item.id, item.tool, item.status)] else [])
            && t'.capture.thoughts == t.capture.thoughts
                 + if item.kind == "reasoning" && Lookup(t.items, item.id) == None then 1 else 0
  {
    hide Texts, Stored, Lookup;
  }

  /** Which of these ran on the last event of a trace, and what it left of the turn but its items. */
  lemma OneMoreHandled(ctx: Context, events: seq<Event>, t: Turn)
    requires events != [] && TellsTrace(ctx, events[..|events| - 1], t)
    requires Handle(ctx, t, events[|events| - 1]).Success?
    ensures var n := |events| - 1;
            var m, e := Marked(t, events[n]), events[n];
            && (Applies(ctx, events, n) && e.body.ItemUpdate? ==> HandleItem(ctx, m, e.body.item, e.body.wellFormed).Success?)
            && (Applies(ctx, events, n) && !e.body.Delta? && !e.body.ItemUpdate? ==> HandleTurnEvent(m, e).Success?)
  {
    hide TellsTrace, Texts, Stored, AppendDelta, Lookup, HandleTurnEvent, HandleItem, Handle, Marked, WithItems, Counted;
    HandledAs(ctx, events, t);
  }

  lemma SeenFollow(ctx: Context, events: seq<Event>, t: Turn)
    requires events != [] && TellsTrace(ctx, events[..|events| - 1], t)
    requires Handle(ctx, t, events[|events| - 1]).Success?
    ensures TellsSeen(ctx, events, Handle(ctx, t, events[|events| - 1]).value.seen)
  {
    hide Handle, HandleItem, HandleTurnEvent, AppendDelta, Texts, Lookup, HoldsItems, TellsCapture, TellsEnds;
    var n := |events| - 1;
    var m, e := Marked(t, events[n]), events[n];
    HandledAs(ctx, events, t);
    OneMoreHandled(ctx, events, t);
    if Applies(ctx, events, n) && e.body.ItemUpdate? {
      ItemKeeps(ctx, m, e.body.item, e.body.wellFormed);
      LookupTells(ctx, events[..n], t.items, e.body.item.id);
    } else if Applies(ctx, events, n) && !e.body.Delta? {
      TurnEventKeeps(m, e);
    }
    assert events == events[..n] + [e];
  }

  lemma TextFollows(ctx: Context, events: seq<Event>, t: Turn)
    requires events != [] && TellsTrace(ctx, events[..|events| - 1], t)
    requires Handle(ctx, t, events[|events| - 1]).Success?
    ensures var t' := Handle(ctx, t, events[|events| - 1]).value; t'.capture.text == Texts(t'.items)
  {
    hide Handle, HandleItem, HandleTurnEvent, AppendDelta, Texts, Lookup, HoldsItems, TellsCapture, TellsEnds, TellsSeen, Effective;
    var n := |events| - 1;
    var m, e := Marked(t, events[n]), events[n];
    HandledAs(ctx, events, t);
    OneMoreHandled(ctx, events, t);
    if Applies(ctx, events, n) && e.body.ItemUpdate? {
      ItemKeeps(ctx, m, e.body.item, e.body.wellFormed);
      LookupTells(ctx, events[..n], t.items, e.body.item.id);
    } else if Applies(ctx, events, n) && !e.body.Delta? {
      TurnEventKeeps(m, e);
    }
    assert events == events[..n] + [e];
  }

  lemma CaptureFollows(ctx: Context, events: seq<Event>, t: Turn)
    requires events != [] && TellsTrace(ctx, events[..|events| - 1], t)
    requires Handle(ctx, t, events[|events| - 1]).Success?
    ensures TellsCapture(ctx, events, Handle(ctx, t, events[|events| - 1]).value.capture)
  {
    hide Handle, HandleItem, HandleTurnEvent, AppendDelta, Texts, Lookup, HoldsItems, TellsSeen, TellsEnds, ItemOf, Effective;
    var n := |events| - 1;
    var m, e := Marked(t, events[n]), events[n];
    HandledAs(ctx, events, t);
    OneMoreHandled(ctx, events, t);
    if Applies(ctx, events, n) && e.body.ItemUpdate? {
      ItemKeeps(ctx, m, e.body.item, e.body.wellFormed);
      LookupTells(ctx, events[..n], t.items, e.body.item.id);
    } else if Applies(ctx, events, n) && !e.body.Delta? {
      TurnEventKeeps(m, e);
    }
    assert events == events[..n] + [e];
  }

  lemma EndsFollow(ctx: Context, events: seq<Event>, t: Turn)
    requires events != [] && TellsTrace(ctx, events[..|events| - 1], t)
    requires Handle(ctx, t, events[|events| - 1]).Success?
    ensures TellsEnds(ctx, events, Handle(ctx, t, events[|events| - 1]).value)
  {
    hide Handle, HandleItem, HandleTurnEvent, AppendDelta, Texts, Lookup, HoldsItems, TellsSeen, TellsCapture, Effective;
    var n := |events| - 1;
    var m, e := Marked(t, events[n]), events[n];
    HandledAs(ctx, events, t);
    OneMoreHandled(ctx, events, t);
    if Applies(ctx, events, n) && e.body.ItemUpdate? {
      ItemKeeps(ctx, m, e.body.item, e.body.wellFormed);
      LookupTells(ctx, events[..n], t.items, e.body.item.id);
    } else if Applies(ctx, events, n) && !e.body.Delta? {
      TurnEventKeeps(m, e);
    }
    assert events == events[..n] + [e];
  }

  lemma StoredIds(items: seq<Item>, item: Item)
    ensures Ids(Stored(items, item)) == if item.id in Ids(items) then Ids(items) else Ids(items) + [item.id]
  {
    var at := Lookup(items, item.id);
    if at.Some? {
      assert Ids(items)[at.value] == item.id;
      assert Ids(Stored(items, item)) == Ids(items);
    } else {
      assert forall k :: 0 <= k < |items| ==> Ids(items)[k] == items[k].id;
      assert Ids(items + [item]) == Ids(items) + [item.id];
    }
  }

  lemma OrderFollows(ctx: Context, events: seq<Event>, t: Turn)
    requires events != [] && TellsTrace(ctx, events[..|events| - 1], t)
    requires Handle(ctx, t, events[|events| - 1]).Success?
    ensures Ids(Handle(ctx, t, events[|events| - 1]).value.items) == IdsIn(ctx, events)
  {
    var n := |events| - 1;
    var m, e := Marked(t, events[n]), events[n];
    HandledAs(ctx, events, t);
    OneMoreHandled(ctx, events, t);
    if Applies(ctx, events, n) && e.body.ItemUpdate? {
      StoredIds(t.items, e.body.item);
    } else if Applies(ctx, events, n) && e.body.Delta? {
      var items := AppendDelta(t.items, e.body.itemId, e.body.isText, e.body.delta).value;
      assert Ids(items) == Ids(t.items);
    } else if Applies(ctx, events, n) {
      TurnEventKeeps(m, e);
      hide HandleTurnEvent;
    }
    hide Handle, Stored, AppendDelta, Texts, Lookup, HoldsItems, TellsSeen, TellsCapture, TellsEnds, Effective;
  }

  /** A turn fails exactly when some event offends; and otherwise it holds exactly what its events tell:
      every item as its own events make it, tool calls, usage, models and the two ends in wire order, the
      first end deciding. */
  lemma {:induction false} TurnTellsTrace(ctx: Context, events: seq<Event>)
    ensures HandleAll(ctx, FRESH, events).Failure? <==> exists k :: 0 <= k < |events| && Offends(ctx, events, k)
    ensures HandleAll(ctx, FRESH, events).Success? ==> TellsTrace(ctx, events, HandleAll(ctx, FRESH, events).value)
    decreases |events|
  {
    if events == [] {
    } else {
      var n := |events| - 1;
      var front := events[..n];
      TurnTellsTrace(ctx, front);
      forall k | 0 <= k < n
        ensures Offends(ctx, events, k) <==> Offends(ctx, front, k)
      {
        OffendsBefore(ctx, events, n, k);
      }
      if HandleAll(ctx, FRESH, front).Success? {
        var t := HandleAll(ctx, FRESH, front).value;
        FailsWhenOffended(ctx, events, t);
        if Handle(ctx, t, events[n]).Success? {
          SeenFollow(ctx, events, t);
          TextFollows(ctx, events, t);
          OrderFollows(ctx, events, t);
          ItemsFollow(ctx, events, t);
          CaptureFollows(ctx, events, t);
          EndsFollow(ctx, events, t);
        }
      }
      hide Offends, Handle, TellsSeen, HoldsItems, TellsCapture, TellsEnds, Texts, Ids;
    }
  }

  lemma OffendsBefore(ctx: Context, events: seq<Event>, n: nat, k: nat)
    requires k < n <= |events|
    ensures Offends(ctx, events, k) <==> Offends(ctx, events[..n], k)
  {
    assert events[..n][..k] == events[..k] && events[..n][k] == events[k];
    hide ItemOf;
  }

  /** The captured text is the text of the agent messages, all of them and nothing else, in the order in
      which the items first appeared. */
  lemma TextIsTheMessages(ctx: Context, events: seq<Event>) returns (at: seq<nat>)
    requires HandleAll(ctx, FRESH, events).Success?
    ensures var t := HandleAll(ctx, FRESH, events).value;
            && |at| == |t.capture.text|
            && (forall j :: 0 <= j < |at| ==> at[j] < |t.items| && t.capture.text[j] == t.items[at[j]].text)
            && (forall i, j :: 0 <= i < j < |at| ==> at[i] < at[j])
            && (forall k :: 0 <= k < |t.items| ==> (k in at <==> t.items[k].kind == "agentMessage"))
            && Ids(t.items) == IdsIn(ctx, events)
  {
    TurnTellsTrace(ctx, events);
    at := MessagesAt(HandleAll(ctx, FRESH, events).value.items);
    TextsAreMessages(HandleAll(ctx, FRESH, events).value.items);
    hide Texts, HandleAll, HoldsItems;
  }

  /** Handling an event that carries a cursor makes every later delivery of it a no-op. */
  lemma DeliveredOnce(ctx: Context, t: Turn, e: Event, later: seq<Event>)
    requires e.cursor.Some? && HandleAll(ctx, t, [e] + later).Success?
    ensures var t' := HandleAll(ctx, t, [e] + later).value;
            Handle(ctx, t', e) == Success(t')
  {
    HandleConcat(ctx, t, [e], later);
    HandleOne(ctx, t, e);
    var t1 := HandleAll(ctx, t, [e]).value;
    TurnsMoveForward(ctx, t1, later);
  }

  /** Redelivering a cursor-bearing event anywhere later in the stream changes nothing: not the
      capture, not the terminal, not even whether the stream is accepted. */
  lemma RedeliveryChangesNothing(ctx: Context, a: seq<Event>, e: Event, b: seq<Event>, c: seq<Event>)
    requires e.cursor.Some?
    ensures HandleAll(ctx, FRESH, a + [e] + b + [e] + c) == HandleAll(ctx, FRESH, a + [e] + b + c)
  {
    var first := a + [e] + b;
    HandleConcat(ctx, FRESH, first, c);
    HandleConcat(ctx, FRESH, first + [e], c);
    HandleConcat(ctx, FRESH, first, [e]);
    if HandleAll(ctx, FRESH, first).Success? {
      HandleOne(ctx, HandleAll(ctx, FRESH, first).value, e);
    }
    assert first == a + ([e] + b);
    HandleConcat(ctx, FRESH, a, [e] + b);
    if HandleAll(ctx, FRESH, first).Success? {
      DeliveredOnce(ctx, HandleAll(ctx, FRESH, a).value, e, b);
    }
  }

  // -- the reader and the coroutine ---------------------------------------------------------------

  /** What the reader can find on the wire. `Aside` is every frame that never reaches `_event`:
      approvals, effort changes, other responses. */
  datatype Message = Note(event: Event) | Ack(turnId: string) | Aside

  function Notes(wire: seq<Message>): seq<Event> {
    if wire == [] then []
    else Notes(wire[..|wire| - 1]) +
         (if wire[|wire| - 1].Note? then [wire[|wire| - 1].event] else [])
  }

  function Acks(wire: seq<Message>): nat {
    if wire == [] then 0
    else Acks(wire[..|wire| - 1]) + (if wire[|wire| - 1].Ack? then 1 else 0)
  }

  /** The connection during one prompt. `acked` is the resolved request future, which the coroutine
      has not been resumed on until `turnId` is set. */
  datatype Connection = Connection(
    sessionId: string, acked: Option<string>, turnId: Option<string>, beforeAck: seq<Event>,
    turn: Turn, failed: bool)

  function Prompted(sessionId: string): Connection {
    Connection(sessionId, None, None, [], FRESH, false)
  }

  function Finish(c: Connection, r: Result<Turn, Error>): Connection {
    match r
    case Success(t) => c.(turn := t)
    case Failure(_) => c.(failed := true)
  }

  /** `_read`, one frame. */
  function ReadOne(c: Connection, m: Message): Connection {
    if c.failed then c
    else match m
      case Aside => c
      case Ack(t) => if c.acked.Some? then c.(failed := true) else c.(acked := Some(t))
      case Note(e) =>
        if c.turnId == None then c.(beforeAck := c.beforeAck + [e])
        else Finish(c, Handle(Context(c.sessionId, c.turnId.value), c.turn, e))
  }

  /** `prompt` resumed on the acknowledgement: take the turn id, then drain the buffer. */
  function ResumeOne(c: Connection): Connection {
    if c.failed || c.acked == None || c.turnId.Some? then c
    else
      var ctx := Context(c.sessionId, c.acked.value);
      Finish(c.(turnId := c.acked, beforeAck := []), HandleAll(ctx, c.turn, c.beforeAck))
  }

  /** The event loop: before which frames the coroutine gets to run is up to the scheduler. */
  datatype Tick = Read | Resume

  datatype LoopState = LoopState(connection: Connection, read: nat)

  function Loop(sessionId: string, wire: seq<Message>, schedule: seq<Tick>): (s: LoopState)
    ensures s.read <= |wire|
    decreases |schedule|
  {
    if schedule == [] then LoopState(Prompted(sessionId), 0)
    else
      var s := Loop(sessionId, wire, schedule[..|schedule| - 1]);
      match schedule[|schedule| - 1]
      case Resume => s.(connection := ResumeOne(s.connection))
      case Read =>
        if s.read == |wire| then s
        else LoopState(ReadOne(s.connection, wire[s.read]), s.read + 1)
  }

  /** At any moment, every notification read so far has been handled, in wire order and once, or all
      of them wait in the buffer in that order. */
  predicate InOrder(c: Connection, read: seq<Message>) {
    && (c.acked.Some? <==> Acks(read) == 1) && Acks(read) <= 1
    && (c.turnId.Some? ==> c.turnId == c.acked && c.beforeAck == [])
    && if c.turnId == None then c.beforeAck == Notes(read) && c.turn == FRESH
       else HandleAll(Context(c.sessionId, c.turnId.value), FRESH, Notes(read)) == Success(c.turn)
  }

  lemma ReadKeepsOrder(c: Connection, m: Message, read: seq<Message>)
    requires !c.failed && InOrder(c, read) && !ReadOne(c, m).failed
    ensures InOrder(ReadOne(c, m), read + [m])
  {
    assert (read + [m])[..|read|] == read;
    if m.Note? {
      assert Notes(read + [m]) == Notes(read) + [m.event];
      if c.turnId.Some? {
        var ctx := Context(c.sessionId, c.turnId.value);
        HandleConcat(ctx, FRESH, Notes(read), [m.event]);
        HandleOne(ctx, c.turn, m.event);
      }
    } else {
      assert Notes(read + [m]) == Notes(read);
    }
  }

  lemma {:induction false} LoopKeepsOrder(sessionId: string, wire: seq<Message>, schedule: seq<Tick>)
    ensures var s := Loop(sessionId, wire, schedule);
            s.connection.sessionId == sessionId && (s.connection.failed || InOrder(s.connection, wire[..s.read]))
    decreases |schedule|
  {
    if schedule != [] {
      var s := Loop(sessionId, wire, schedule[..|schedule| - 1]);
      LoopKeepsOrder(sessionId, wire, schedule[..|schedule| - 1]);
      if schedule[|schedule| - 1] == Read && s.read < |wire| && !s.connection.failed {
        assert wire[..s.read + 1] == wire[..s.read] + [wire[s.read]];
        if !ReadOne(s.connection, wire[s.read]).failed {
          ReadKeepsOrder(s.connection, wire[s.read], wire[..s.read]);
        }
      }
    }
  }

  /** A schedule that reads the whole wire and lets the coroutine run after the acknowledgement. */
  predicate Complete(s: LoopState, wire: seq<Message>) {
    s.read == |wire| && s.connection.turnId.Some?
  }

  /** Whatever the scheduling of the reader against the acknowledged coroutine, a run without a
      protocol error ends with the capture and terminal of the events handled in wire order, which
      is what the run in which the acknowledgement came first computes. */
  lemma SchedulingIsInvisible(sessionId: string, wire: seq<Message>, schedule: seq<Tick>)
    requires var s := Loop(sessionId, wire, schedule); Complete(s, wire) && !s.connection.failed
    ensures var c := Loop(sessionId, wire, schedule).connection;
            && HandleAll(Context(sessionId, c.turnId.value), FRESH, Notes(wire)) == Success(c.turn)
            && c.beforeAck == []
  {
    LoopKeepsOrder(sessionId, wire, schedule);
    assert wire[..|wire|] == wire;
  }

  /** Two schedules of the same wire cannot be told apart by their results. */
  lemma SchedulesAgree(sessionId: string, wire: seq<Message>, s1: seq<Tick>, s2: seq<Tick>)
    requires var a := Loop(sessionId, wire, s1); Complete(a, wire) && !a.connection.failed
    requires var b := Loop(sessionId, wire, s2); Complete(b, wire) && !b.connection.failed
    ensures Loop(sessionId, wire, s1).connection.turn == Loop(sessionId, wire, s2).connection.turn
  {
    SchedulingIsInvisible(sessionId, wire, s1);
    SchedulingIsInvisible(sessionId, wire, s2);
    AckIsTheWires(sessionId, wire, s1);
    AckIsTheWires(sessionId, wire, s2);
  }

  function FirstAck(wire: seq<Message>): Option<string> {
    if wire == [] then None
    else
      var before := FirstAck(wire[..|wire| - 1]);
      if before == None && wire[|wire| - 1].Ack? then Some(wire[|wire| - 1].turnId) else before
  }

  lemma {:induction false} AckIsTheWires(sessionId: string, wire: seq<Message>, schedule: seq<Tick>)
    ensures var s := Loop(sessionId, wire, schedule);
            && s.read <= |wire|
            && (!s.connection.failed ==> s.connection.acked == FirstAck(wire[..s.read]))
            && (s.connection.turnId.Some? ==> s.connection.turnId == s.connection.acked)
    decreases |schedule|
  {
    if schedule != [] {
      var s := Loop(sessionId, wire, schedule[..|schedule| - 1]);
      AckIsTheWires(sessionId, wire, schedule[..|schedule| - 1]);
      if s.read < |wire| {
        assert wire[..s.read + 1][..s.read] == wire[..s.read];
      }
    }
  }

  // -- the worker object --------------------------------------------------------------------------

  /** The worker's own fields while one prompt is open; `wire` is everything read so far. */
  class MuseWorker {
    const sessionId: string
    var acked: Option<string>
    var turnId: Option<string>
    var beforeAck: seq<Event>
    var turn: Turn
    var failed: bool
    ghost var wire: seq<Message>

    ghost function State(): Connection
      reads this
    {
      Connection(sessionId, acked, turnId, beforeAck, turn, failed)
    }

    /** No notification is lost, repeated or reordered by the buffer. */
    ghost predicate Valid()
      reads this
    {
      failed || InOrder(State(), wire)
    }

    /** `prompt` up to sending `turn/start`. */
    constructor (sessionId: string)
      ensures Valid() && !failed && wire == [] && State() == Prompted(sessionId)
    {
      this.sessionId := sessionId;
      acked, turnId, beforeAck := None, None, [];
      turn, failed, wire := FRESH, false, [];
    }

    method Read(m: Message)
      requires Valid() && !failed
      modifies this
      ensures Valid() && wire == old(wire) + [m] && State() == ReadOne(old(State()), m)
    {
      ghost var before := State();
      wire := wire + [m];
      match m {
        case Aside =>
        case Ack(t) =>
          if acked.Some? { failed := true; } else { acked := Some(t); }
        case Note(e) =>
          if turnId == None {
            beforeAck := beforeAck + [e];
          } else {
            var r := Handle(Context(sessionId, turnId.value), turn, e);
            if r.Failure? { failed := true; } else { turn := r.value; }
          }
      }
      if !failed {
        ReadKeepsOrder(before, m, old(wire));
      }
    }

    /** The coroutine resumes: it takes the turn id and handles what was buffered, in order, before
        the reader can run again. */
    method Resume()
      requires Valid() && !failed && acked.Some? && turnId == None
      modifies this
      ensures Valid() && wire == old(wire) && turnId == old(acked) && turnId.Some?
      ensures failed || (beforeAck == [] && State() == ResumeOne(old(State())))
      ensures failed <==> HandleAll(Context(sessionId, turnId.value), FRESH, Notes(wire)).Failure?
    {
      turnId := acked;
      var ctx := Context(sessionId, turnId.value);
      var i := 0;
      while i < |beforeAck|
        invariant 0 <= i <= |beforeAck| && beforeAck == old(beforeAck) && turnId == acked == old(acked)
        invariant !failed && wire == old(wire)
        invariant HandleAll(ctx, FRESH, beforeAck[..i]) == Success(turn)
      {
        assert beforeAck[..i + 1][..i] == beforeAck[..i];
        var r := Handle(ctx, turn, beforeAck[i]);
        if r.Failure? {
          failed := true;
          assert beforeAck == beforeAck[..i + 1] + beforeAck[i + 1..];
          HandleConcat(ctx, FRESH, beforeAck[..i + 1], beforeAck[i + 1..]);
          return;
        }
        turn := r.value;
        i := i + 1;
      }
      assert beforeAck[..i] == beforeAck;
      beforeAck := [];
    }
  }
}
