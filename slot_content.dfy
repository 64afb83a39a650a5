/**
 * The content-change notifier of src/mixins/SlotContentMixin.js.
 *
 * The first half is the event-timing logic as a pure state machine
 * (`Timing`, with one function per stimulus); the second half is the
 * component class, whose methods are proved to move its fields exactly as
 * the machine does, and which also records every handler invocation.
 */
module SlotContentMixin {
  import opened Dom

  // ---------------------------------------------------------------------
  // The event-timing state machine

  /** A deferred callback queued with `Promise.resolve().then(...)`. */
  datatype Task = Normalize | DeferredNotify

  /** Which code path delivered content to the handlers. */
  datatype Cause = SlotChange | Deferred | Normalization

  /** What happened, in order: a `slotchange` reaching the listener, or a delivery. */
  datatype Entry = SlotChangeEvent | Notified(cause: Cause, raising: bool)

  /**
   * The observer's flags and queue. `listening` says whether a `slotchange`
   * listener was attached at construction; `fired`, `raising` and
   * `rendering` are the slotchange-fired, raiseChangeEvents and rendering
   * flags; `pending` the queued callbacks, oldest first; `history` what
   * happened so far.
   */
  datatype Timing = Timing(
    listening: bool,
    fired: bool,
    raising: bool,
    rendering: bool,
    pending: seq<Task>,
    history: seq<Entry>)

  /** The stimuli the host can apply to an observer. */
  datatype Event = SlotChangeFires | MicrotaskRuns | RenderingSet(on: bool)

  /** Construction: with a slot, a listener is attached and exactly one normalization task is queued. */
  function Construct(listening: bool): (t: Timing)
    ensures t.listening == listening && t.history == []
    ensures !t.fired && !t.raising && !t.rendering
    ensures listening <==> Normalize in t.pending
    ensures forall k :: 0 <= k < |t.pending| ==> t.pending[k] == Normalize && k == 0
  {
    Timing(listening, false, false, false, if listening then [Normalize] else [], [])
  }

  /**
   * The `slotchange` listener: raise change events, note that the event
   * fired, deliver now unless rendering (then queue one deferred
   * delivery), and stop raising change events.
   */
  function SlotChanged(t: Timing): (u: Timing)
    ensures !t.listening ==> u == t
    ensures t.listening ==> u.fired && !u.raising
    ensures u.listening == t.listening && u.rendering == t.rendering
    ensures t.listening && !t.rendering ==>
      u.history == t.history + [SlotChangeEvent, Notified(SlotChange, true)] && u.pending == t.pending
    ensures t.listening && t.rendering ==>
      u.history == t.history + [SlotChangeEvent] && u.pending == t.pending + [DeferredNotify]
  {
    if !t.listening then t
    else
      var marked := t.(raising := true, fired := true, history := t.history + [SlotChangeEvent]);
      var handled :=
        if !marked.rendering then marked.(history := marked.history + [Notified(SlotChange, marked.raising)])
        else marked.(pending := marked.pending + [DeferredNotify]);
      handled.(raising := false)
  }

  /**
   * Run the oldest queued callback. A deferred delivery always delivers; the
   * normalization task delivers (setting the fired flag first) only if no
   * `slotchange` has fired.
   */
  function RunNext(t: Timing): (u: Timing)
    ensures t.pending == [] ==> u == t
    ensures t.pending != [] ==> u.pending == t.pending[1..]
    ensures u.listening == t.listening && u.raising == t.raising && u.rendering == t.rendering
    ensures t.pending != [] && t.pending[0] == Normalize ==>
      u.fired && u.history == if t.fired then t.history else t.history + [Notified(Normalization, t.raising)]
    ensures t.pending != [] && t.pending[0] == DeferredNotify ==>
      u.fired == t.fired && u.history == t.history + [Notified(Deferred, t.raising)]
  {
    if t.pending == [] then t
    else
      var rest := t.(pending := t.pending[1..]);
      match t.pending[0]
      case Normalize =>
        if !rest.fired then rest.(fired := true, history := rest.history + [Notified(Normalization, rest.raising)])
        else rest
      case DeferredNotify =>
        rest.(history := rest.history + [Notified(Deferred, rest.raising)])
  }

  /** The rendering flag, set and cleared by the render machinery around each render. */
  function SetRendering(t: Timing, on: bool): (u: Timing)
    ensures u.rendering == on
    ensures u.(rendering := t.rendering) == t
  {
    t.(rendering := on)
  }

  function Step(t: Timing, e: Event): Timing
  {
    match e
    case SlotChangeFires => SlotChanged(t)
    case MicrotaskRuns => RunNext(t)
    case RenderingSet(on) => SetRendering(t, on)
  }

  /** The state after applying the events in order. */
  function Run(t: Timing, events: seq<Event>): Timing
    decreases |events|
  {
    if events == [] then t else Run(Step(t, events[0]), events[1..])
  }

  lemma {:induction false} RunAppend(t: Timing, events: seq<Event>, e: Event)
    ensures Run(t, events + [e]) == Step(Run(t, events), e)
    decreases |events|
  {
    if events == [] {
      assert events + [e] == [e];
    } else {
      assert (events + [e])[1..] == events[1..] + [e];
      RunAppend(Step(t, events[0]), events[1..], e);
    }
  }

  /** How many deliveries in `h` came from `cause`. */
  function CountCause(h: seq<Entry>, cause: Cause): nat
  {
    if h == [] then 0
    else CountCause(h[..|h| - 1], cause) + (if h[|h| - 1].Notified? && h[|h| - 1].cause == cause then 1 else 0)
  }

  predicate NoNormalizationAfterSlotChange(h: seq<Entry>)
  {
    forall i, j :: 0 <= i < j < |h| && h[i] == SlotChangeEvent ==>
      !(h[j].Notified? && h[j].cause == Normalization)
  }

  /** Deliveries from inside the listener raise change events; every other delivery does not. */
  predicate RaisingMatchesCause(h: seq<Entry>)
  {
    forall i :: 0 <= i < |h| && h[i].Notified? ==> (h[i].raising <==> h[i].cause == SlotChange)
  }

  /** What holds of every state reachable from construction. */
  predicate Consistent(t: Timing)
  {
    && !t.raising
    && (!t.listening ==> t.pending == [] && t.history == [])
    && (forall k :: 0 < k < |t.pending| ==> t.pending[k] == DeferredNotify)
    && (t.pending != [] && t.pending[0] == Normalize ==> CountCause(t.history, Normalization) == 0)
    && CountCause(t.history, Normalization) <= 1
    && (SlotChangeEvent in t.history ==> t.fired)
    && NoNormalizationAfterSlotChange(t.history)
    && RaisingMatchesCause(t.history)
  }

  lemma {:induction false} CountAppend(h: seq<Entry>, e: Entry, cause: Cause)
    ensures CountCause(h + [e], cause) == CountCause(h, cause) + (if e.Notified? && e.cause == cause then 1 else 0)
  {
    assert (h + [e])[..|h|] == h;
  }

  /** Appending one entry keeps the ordering and raising facts, when the entry respects them. */
  lemma {:induction false} AppendEntry(h: seq<Entry>, e: Entry)
    requires NoNormalizationAfterSlotChange(h) && RaisingMatchesCause(h)
    requires e.Notified? && e.cause == Normalization ==> SlotChangeEvent !in h
    requires e.Notified? ==> (e.raising <==> e.cause == SlotChange)
    ensures NoNormalizationAfterSlotChange(h + [e]) && RaisingMatchesCause(h + [e])
    ensures CountCause(h + [e], Normalization) == CountCause(h, Normalization) + (if e.Notified? && e.cause == Normalization then 1 else 0)
    ensures SlotChangeEvent in h + [e] <==> SlotChangeEvent in h || e == SlotChangeEvent
  {
    CountAppend(h, e, Normalization);
    var h' := h + [e];
    forall i, j | 0 <= i < j < |h'| && h'[i] == SlotChangeEvent
      ensures !(h'[j].Notified? && h'[j].cause == Normalization)
    {
      if j == |h| {
        assert h[i] == SlotChangeEvent;
      } else {
        assert h'[i] == h[i] && h'[j] == h[j];
      }
    }
  }

  lemma {:induction false} SlotChangedKeepsConsistent(t: Timing)
    requires Consistent(t)
    ensures Consistent(SlotChanged(t))
  {
    if t.listening {
      AppendEntry(t.history, SlotChangeEvent);
      if !t.rendering {
        AppendEntry(t.history + [SlotChangeEvent], Notified(SlotChange, true));
        assert t.history + [SlotChangeEvent, Notified(SlotChange, true)]
          == (t.history + [SlotChangeEvent]) + [Notified(SlotChange, true)];
      } else {
        var p := t.pending + [DeferredNotify];
        assert forall k :: 0 < k < |p| ==> p[k] == DeferredNotify;
      }
    }
  }

  lemma {:induction false} RunNextKeepsConsistent(t: Timing)
    requires Consistent(t)
    ensures Consistent(RunNext(t))
  {
    if t.pending != [] {
      var p := t.pending[1..];
      assert forall k :: 0 <= k < |p| ==> p[k] == t.pending[k + 1];
      if t.pending[0] == Normalize {
        if !t.fired {
          AppendEntry(t.history, Notified(Normalization, false));
        }
      } else {
        AppendEntry(t.history, Notified(Deferred, false));
      }
    }
  }

  lemma {:induction false} StepKeepsConsistent(t: Timing, e: Event)
    requires Consistent(t)
    ensures Consistent(Step(t, e)) && Step(t, e).listening == t.listening
  {
    match e
    case SlotChangeFires => SlotChangedKeepsConsistent(t);
    case MicrotaskRuns => RunNextKeepsConsistent(t);
    case RenderingSet(on) =>
  }

  lemma {:induction false} RunKeepsConsistent(t: Timing, events: seq<Event>)
    requires Consistent(t)
    ensures Consistent(Run(t, events)) && Run(t, events).listening == t.listening
    decreases |events|
  {
    if events != [] {
      StepKeepsConsistent(t, events[0]);
      RunKeepsConsistent(Step(t, events[0]), events[1..]);
    }
  }

  /**
   * Whatever the host does, the normalization task delivers at most once
   * and never after a `slotchange` reached the listener; deliveries raise
   * change events exactly when they happen inside the listener; and an
   * observer built without a slot never delivers anything.
   */
  lemma NormalizationDeliversAtMostOnce(listening: bool, events: seq<Event>)
    ensures var t := Run(Construct(listening), events);
      && CountCause(t.history, Normalization) <= 1
      && NoNormalizationAfterSlotChange(t.history)
      && RaisingMatchesCause(t.history)
      && (!listening ==> t.history == [] && t.pending == [])
  {
    RunKeepsConsistent(Construct(listening), events);
  }

  predicate NoSlotChange(events: seq<Event>)
  {
    forall k :: 0 <= k < |events| ==> events[k] != SlotChangeFires
  }

  /** Before the normalization task ran, in a host that never fires `slotchange`. */
  predicate Waiting(t: Timing)
  {
    t.listening && !t.raising && !t.fired && t.pending == [Normalize] && t.history == []
  }

  /** After the normalization task synthesized the initial delivery. */
  predicate Normalized(t: Timing)
  {
    t.listening && !t.raising && t.fired && t.pending == [] && t.history == [Notified(Normalization, false)]
  }

  lemma {:induction false} QuietRun(t: Timing, events: seq<Event>)
    requires Waiting(t) || Normalized(t)
    requires NoSlotChange(events)
    ensures Normalized(t) ==> Normalized(Run(t, events))
    ensures Waiting(t) && MicrotaskRuns in events ==> Normalized(Run(t, events))
    ensures Waiting(t) && MicrotaskRuns !in events ==> Waiting(Run(t, events))
    decreases |events|
  {
    if events != [] {
      assert events[0] != SlotChangeFires;
      assert NoSlotChange(events[1..]) by {
        forall k | 0 <= k < |events[1..]| ensures events[1..][k] != SlotChangeFires {
          assert events[1..][k] == events[k + 1];
        }
      }
      assert events == [events[0]] + events[1..];
      QuietRun(Step(t, events[0]), events[1..]);
    }
  }

  /**
   * In a host that never fires `slotchange`, the first microtask synthesizes
   * exactly one delivery of the initial content, and nothing more follows.
   */
  lemma NormalizationDeliversInitialContent(events: seq<Event>)
    requires NoSlotChange(events)
    requires MicrotaskRuns in events
    ensures Run(Construct(true), events).history == [Notified(Normalization, false)]
  {
    QuietRun(Construct(true), events);
  }

  /**
   * The listener does not consult the fired flag: whenever the normalization
   * task has already delivered and the component is not rendering, a
   * further `slotchange` delivers the content again, raising change events.
   */
  lemma {:induction false} LateSlotChangeDeliversAgain(events: seq<Event>)
    requires var t := Run(Construct(true), events);
      CountCause(t.history, Normalization) == 1 && !t.rendering
    ensures var t := Run(Construct(true), events);
      var u := Run(Construct(true), events + [SlotChangeFires]);
      && u.history == t.history + [SlotChangeEvent, Notified(SlotChange, true)]
      && CountCause(u.history, Normalization) == 1
      && CountCause(u.history, SlotChange) == CountCause(t.history, SlotChange) + 1
  {
    var t := Run(Construct(true), events);
    RunKeepsConsistent(Construct(true), events);
    RunAppend(Construct(true), events, SlotChangeFires);
    var h := t.history + [SlotChangeEvent];
    CountAppend(t.history, SlotChangeEvent, Normalization);
    CountAppend(t.history, SlotChangeEvent, SlotChange);
    CountAppend(h, Notified(SlotChange, true), Normalization);
    CountAppend(h, Notified(SlotChange, true), SlotChange);
    assert t.history + [SlotChangeEvent, Notified(SlotChange, true)] == h + [Notified(SlotChange, true)];
  }

  /** One run where it happens: the normalization task delivers, then a `slotchange` delivers again. */
  lemma LateSlotChangeExample()
    ensures Run(Construct(true), [MicrotaskRuns, SlotChangeFires]).history
      == [Notified(Normalization, false), SlotChangeEvent, Notified(SlotChange, true)]
  {
  }

  // ---------------------------------------------------------------------
  // Handlers and their invocations

  /** A registered content-change callback, known by identity. */
  type Handler = nat

  /** One invocation of a handler with a content value. */
  datatype Call = Call(handler: Handler, content: NodeList?)

  /** The invocations `handlers.map(fn => fn(content))` makes, in order. */
  function FanOut(handlers: seq<Handler>, content: NodeList?): (calls: seq<Call>)
    ensures |calls| == |handlers|
    ensures forall k :: 0 <= k < |handlers| ==> calls[k].handler == handlers[k] && calls[k].content == content
  {
    if handlers == [] then []
    else FanOut(handlers[..|handlers| - 1], content) + [Call(handlers[|handlers| - 1], content)]
  }

  /** `content` is what `assignedNodesChanged` reads from `slot`: null without a slot, else its assigned nodes. */
  predicate Captures(content: NodeList?, slot: Slot?)
    reads slot
  {
    (content == null <==> slot == null) && (content != null && slot != null ==> content.nodes == slot.assignedNodes)
  }

  // ---------------------------------------------------------------------
  // The component

  class SlotContent {
    const shadowRoot: ShadowRoot?
    /** The slot the `slotchange` listener was attached to at construction, if any. */
    const listenedSlot: Slot?
    var handlers: seq<Handler>
    var fired: bool
    var raising: bool
    var rendering: bool
    var pending: seq<Task>
    /** The stimuli applied so far. */
    ghost var events: seq<Event>
    ghost var history: seq<Entry>
    /** Every handler invocation so far, in order. */
    ghost var calls: seq<Call>

    ghost function TimingState(): Timing
      reads this
    {
      Timing(listenedSlot != null, fired, raising, rendering, pending, history)
    }

    ghost predicate Valid()
      reads this
    {
      TimingState() == Run(Construct(listenedSlot != null), events)
    }

    /** `_contentSlot`: the shadow tree's default slot, or null (the warning is not modelled). */
    function ContentSlot(): (slot: Slot?)
      reads this, shadowRoot
      ensures shadowRoot == null ==> slot == null
      ensures shadowRoot != null ==> slot == shadowRoot.defaultSlot
    {
      if shadowRoot == null then null else shadowRoot.defaultSlot
    }

    constructor (shadowRoot: ShadowRoot?)
      ensures this.shadowRoot == shadowRoot
      ensures listenedSlot == (if shadowRoot == null then null else shadowRoot.defaultSlot)
      ensures Valid() && events == []
      ensures TimingState() == Construct(listenedSlot != null)
      ensures handlers == [] && calls == []
    {
      this.shadowRoot := shadowRoot;
      var slot := if shadowRoot == null then null else shadowRoot.defaultSlot;
      listenedSlot := slot;
      handlers := [];
      fired, raising, rendering := false, false, false;
      pending := if slot != null then [Normalize] else [];
      events, history, calls := [], [], [];
    }

    /** Register a handler after all earlier ones. */
    method OnContentChange(handler: Handler)
      modifies this`handlers
      ensures handlers == old(handlers) + [handler]
    {
      handlers := handlers + [handler];
    }

    /** Invoke every registered handler once, in registration order, with `content`. */
    method ContentChanged(content: NodeList?)
      modifies this`calls
      ensures calls == old(calls) + FanOut(handlers, content)
    {
      var hs := handlers;
      var i := 0;
      while i < |hs|
        invariant 0 <= i <= |hs|
        invariant calls == old(calls) + FanOut(hs[..i], content)
      {
        assert hs[..i + 1][..i] == hs[..i];
        calls := calls + [Call(hs[i], content)];
        i := i + 1;
      }
      assert hs[..i] == hs;
    }

    /** The host fires `slotchange` on the slot; without a listener nothing happens. */
    method FireSlotChange() returns (ghost delivered: Option<NodeList?>)
      requires Valid()
      modifies this`fired, this`raising, this`pending, this`events, this`history, this`calls
      ensures Valid() && events == old(events) + [SlotChangeFires]
      ensures TimingState() == SlotChanged(old(TimingState()))
      ensures delivered.Some? <==> listenedSlot != null && !rendering
      ensures delivered.Some? ==> Captures(delivered.value, ContentSlot())
      ensures delivered.Some? && delivered.value != null ==> fresh(delivered.value)
      ensures calls == old(calls) + (if delivered.Some? then FanOut(handlers, delivered.value) else [])
    {
      delivered := None;
      if listenedSlot != null {
        raising := true;
        fired := true;
        history := history + [SlotChangeEvent];
        if !rendering {
          history := history + [Notified(SlotChange, raising)];
          var content := AssignedNodesChanged(this);
          delivered := Some(content);
        } else {
          pending := pending + [DeferredNotify];
        }
        raising := false;
      }
      RunAppend(Construct(listenedSlot != null), old(events), SlotChangeFires);
      events := events + [SlotChangeFires];
    }

    /** The oldest queued callback runs; with none queued nothing happens. */
    method RunNextTask() returns (ghost delivered: Option<NodeList?>)
      requires Valid()
      modifies this`fired, this`pending, this`events, this`history, this`calls
      ensures Valid() && events == old(events) + [MicrotaskRuns]
      ensures TimingState() == RunNext(old(TimingState()))
      ensures delivered.Some? <==> old(pending) != [] && (old(pending)[0] == DeferredNotify || !old(fired))
      ensures delivered.Some? ==> Captures(delivered.value, ContentSlot())
      ensures delivered.Some? && delivered.value != null ==> fresh(delivered.value)
      ensures calls == old(calls) + (if delivered.Some? then FanOut(handlers, delivered.value) else [])
    {
      delivered := None;
      if pending != [] {
        var task := pending[0];
        pending := pending[1..];
        match task
        case Normalize =>
          if !fired {
            fired := true;
            history := history + [Notified(Normalization, raising)];
            var content := AssignedNodesChanged(this);
            delivered := Some(content);
          }
        case DeferredNotify =>
          history := history + [Notified(Deferred, raising)];
          var content := AssignedNodesChanged(this);
          delivered := Some(content);
      }
      RunAppend(Construct(listenedSlot != null), old(events), MicrotaskRuns);
      events := events + [MicrotaskRuns];
    }

    /** The render machinery sets or clears the rendering flag. */
    method SetRenderingFlag(on: bool)
      requires Valid()
      modifies this`rendering, this`events
      ensures Valid() && events == old(events) + [RenderingSet(on)]
      ensures TimingState() == SetRendering(old(TimingState()), on)
    {
      rendering := on;
      RunAppend(Construct(listenedSlot != null), old(events), RenderingSet(on));
      events := events + [RenderingSet(on)];
    }
  }

  /**
   * The component's content changed: read the default slot's assigned nodes
   * afresh (null without a slot) and hand them to every handler.
   */
  method AssignedNodesChanged(component: SlotContent) returns (ghost content: NodeList?)
    modifies component`calls
    ensures Captures(content, component.ContentSlot())
    ensures content != null ==> fresh(content)
    ensures component.calls == old(component.calls) + FanOut(component.handlers, content)
  {
    var slot := component.ContentSlot();
    var c: NodeList? := null;
    if slot != null {
      c := new NodeList(slot.assignedNodes);
    }
    component.ContentChanged(c);
    content := c;
  }

  /** Any observer built by the constructor and driven only by its methods has the machine's guarantees. */
  lemma ObserverGuarantees(o: SlotContent)
    requires o.Valid()
    ensures CountCause(o.history, Normalization) <= 1
    ensures NoNormalizationAfterSlotChange(o.history)
    ensures RaisingMatchesCause(o.history)
    ensures o.listenedSlot == null ==> o.history == [] && o.pending == []
  {
    NormalizationDeliversAtMostOnce(o.listenedSlot != null, o.events);
  }
}
