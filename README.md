# Content pipeline of the mixin toolkit, modelled in Dafny

This project models two sequential pieces of a web-component toolkit's content pipeline.

- **The content-change notifier** (`SlotContent`, src/mixins/SlotContentMixin.js). It watches the component's default slot. It keeps a list of handlers that only grows, and hands each new content list to every handler in registration order. It also evens out browsers' inconsistent timing of the first `slotchange` event. A `slotchange` sets a "fired" flag and delivers content at once, or one microtask later when the component is rendering. A normalization microtask, queued at construction, delivers the initial content only if no `slotchange` fired first.
- **The item projection pass** (`ContentItems`, src/mixins/ContentItemsMixin.js). It derives the component's items from its content and memoizes them on the content's identity. It computes per-item calculations (`{index}` under a lower layer's record) and per-item update descriptions. On every render, after the lower layer's render, it captures each item's original snapshot once and applies one update per item, in order.

Files:

- `dom.dfy` (module `Dom`): the host document as the mixins see it. Nodes carry their props and their stored original snapshot. Frozen node lists are compared by reference. There are slots, a shadow root reduced to its default slot, and the value shapes of calculations and updates.
- `slot_content.dfy` (module `SlotContentMixin`): the event-timing logic as a pure state machine (`Timing` with `Construct`, `SlotChanged`, `RunNext`, `SetRendering`), and theorems about every event sequence. It also holds the `SlotContent` class, whose methods are proved to move its fields exactly as the machine does, and the module function `AssignedNodesChanged`.
- `content_items.dfy` (module `ContentItemsMixin`): `ItemCalcs` and `ItemUpdates`, the `ContentItems` class with the memoizing `Items` getter and `Render`, and the per-item loop `RenderItems`. The loop is proved against `RenderPass`, a function that computes the same pass on a map from each node to what it holds. The lemmas about `RenderPass` state what a render does to the items.

Modelling choices:

- JavaScript object identity becomes a Dafny class reference. A frozen array is a `NodeList` with a `const` field. `null` content or items is a null reference.
- `previousContentKey` starts out `undefined`, which differs from `null`. It is the datatype `Seen` (`Unseen | Seen(content)`), so the first read with null content still calls `itemsForState`.
- The `super` layers (`super[symbols.render]`, `super.items`, `super.itemCalcs`, `super.itemUpdates`) arrive on each call as a `Base` value. A false `renders` flag, a null list or `None` means that no such layer exists.
- `Promise.resolve().then(...)` becomes an explicit FIFO queue of tasks (`pending`). The host's stimuli are the methods `FireSlotChange`, `RunNextTask` and `SetRenderingFlag`.
- Handlers are known by an id. Each invocation is recorded in a ghost log `calls`. Events and deliveries are recorded in the ghost `history`. Render's work is recorded in the ghost `trace`.
- content.js and updates.js are not part of this model. `substantiveElements` is modelled as `Substantive`, the content's nodes that a host-supplied predicate accepts, in order. `current` and `apply` enter as function values, and nothing is assumed about them. The one exception is `RenderPassIdempotent`, which takes the idempotence of `apply` as a hypothesis.

The comment beside the normalization task (src/mixins/SlotContentMixin.js:40-45) promises only a best effort: the component always gets a chance to process its initial content. Waiting one microtask is meant to tell an initial `slotchange` from a later one. The listener (src/mixins/SlotContentMixin.js:13-38) never reads the fired flag, so the code guarantees what `NormalizationDeliversAtMostOnce` proves: the normalization task delivers at most once, and never after a `slotchange`. `LateSlotChangeDeliversAgain` shows where the best effort stops. A `slotchange` after the normalization task has delivered delivers the content a second time.

## Model

| member | source | states |
|---|---|---|
| `ContentItemsMixin.ItemCalcs` | src/mixins/ContentItemsMixin.js:45-48 | Without a lower layer the result is exactly `{index}`. Otherwise it has the lower layer's keys plus `index`, keeps every lower-layer field with its value, and holds the argument under `index` whenever the lower layer defines no `index`. |
| `ContentItemsMixin.ItemUpdates` | src/mixins/ContentItemsMixin.js:110-114 | Without a lower layer the description is the empty `{}`. Otherwise it is the lower layer's description, unchanged. |
| `ContentItemsMixin.ContentItems.constructor` | src/mixins/ContentItemsMixin.js:8-10 | The class has no constructor of its own. This one models the initial state of its private fields: no remembered content (`previousContentKey` is `undefined`, which is not even `null`), so the memo invariant holds, and `itemsForState` has been called zero times. Its parameter stands in for content.js, saying which nodes are substantive. |
| `ContentItemsMixin.Substantive` | src/mixins/ContentItemsMixin.js:75-79 | The stand-in for `substantiveElements`: a node is among the result exactly when it is among the content's nodes and the host deems it substantive, and the result is never longer than the content. |
| `ContentItemsMixin.ContentItems.ItemsForState` | src/mixins/ContentItemsMixin.js:75-79 | Returns null exactly when there is no content. Otherwise it returns a new list holding the substantive elements of the content's nodes. |
| `ContentItemsMixin.ContentItems.Items` | src/mixins/ContentItemsMixin.js:58-73 | A lower layer's list is returned as is, with the memo fields untouched. With the same content identity as last time, the memoized list is returned, both memo fields stay as they were, and `itemsForState` is not called. Otherwise `itemsForState` is called once, its result is remembered, and the content becomes the remembered content. Without a lower layer, the result is always null exactly when the content is, and otherwise holds the substantive elements of the content (the memo is never stale). |
| `ContentItemsMixin.ContentItems.ItemList` | src/mixins/ContentItemsMixin.js:119 | `this.items || []`: the sequence of what the `items` getter returns, empty when it returns null. The memo invariant is kept. The memo fields change as the getter changes them: they are kept, and `itemsForState` is not called, with a lower layer's list or the same content identity as last time. Otherwise `itemsForState` is called once and the content is remembered. |
| `ContentItemsMixin.ContentItems.Render` | src/mixins/ContentItemsMixin.js:116-128 | The lower layer's render is logged first, and only when a lower layer has one. The items are those the `items` getter yields for this content. Every one of them ends up holding exactly what `RenderPass` computes from what it held before, and the logged steps are that pass's steps. The memo fields change exactly as one read of `items` changes them, so with unchanged content identity the list is not recomputed. Of the page, only the items are written. |
| `ContentItemsMixin.RenderItem` | src/mixins/ContentItemsMixin.js:120-125 | One callback: a stored original is kept, and an absent one becomes `current` of the item's props. The item's props become `apply` of its old props and the update planned from its calculations and that original. |
| `ContentItemsMixin.RenderItems` | src/mixins/ContentItemsMixin.js:119-126 | The `forEach` loop leaves every item holding exactly what `RenderPass` says, and returns that pass's steps. |
| `ContentItemsMixin.RenderPass` | src/mixins/ContentItemsMixin.js:119-126 | The `forEach` loop as a function of what the nodes hold. The pass keeps the same set of nodes, takes exactly one step per item, and each step is one callback (`PassItem`) on the state the earlier callbacks left. |
| `ContentItemsMixin.PassItem` | src/mixins/ContentItemsMixin.js:121-125 | One callback keeps the same set of nodes and logs exactly one more step. |
| `ContentItemsMixin.PassItemSettles` | src/mixins/ContentItemsMixin.js:121-125 | One callback settles the item's original: a held one is kept, and a missing one is `current` of its props. It logs one step whose update is planned from that original, applies that update once to the item's props, and leaves every other node as it was. |
| `ContentItemsMixin.RenderPassSteps` | src/mixins/ContentItemsMixin.js:119-126 | The pass takes exactly one step per item, in index order, with the item's own index, and each step's original is the one the item holds after the pass. |
| `ContentItemsMixin.RenderPassPlans` | src/mixins/ContentItemsMixin.js:124-125 | Every step's update is `itemUpdates(item, itemCalcs(item, index), original)` for that step's item, index and original. |
| `ContentItemsMixin.PlannedAt` | src/mixins/ContentItemsMixin.js:124-125 | Reads the planned update of any single step off a whole logged pass. |
| `ContentItemsMixin.RenderPassSettles` | src/mixins/ContentItemsMixin.js:121-123 | Every item ends up with an original. One it already had is never overwritten, and a missing one is `current` of its props before the pass, even when the item occurs twice. Nodes that are not items are left alone. |
| `ContentItemsMixin.RenderPassReplays` | src/mixins/ContentItemsMixin.js:119-126 | Every node's props after the pass are its props before the pass with the updates of its own steps applied in order. |
| `ContentItemsMixin.RenderPassOnce` | src/mixins/ContentItemsMixin.js:119-126 | When the items are distinct nodes, each receives exactly one `apply`, on top of its props before the pass, with the update planned from its own index and its settled original. |
| `ContentItemsMixin.RenderPassIdempotent` | src/mixins/ContentItemsMixin.js:119-126 | With an idempotent `apply`, a second pass over the same distinct items leaves everything as the first pass left it, because the originals, and so the planned updates, do not change. |
| `ContentItemsMixin.Settled` | src/mixins/ContentItemsMixin.js:121-123 | After the callback an item always holds an original, and one it already held is never overwritten. |
| `ContentItemsMixin.ReplayOnce` | src/mixins/ContentItemsMixin.js:120-126 | In a log where every step updates a different node, each node's props are its starting props with exactly its own update applied once. |
| `SlotContentMixin.Construct` | src/mixins/SlotContentMixin.js:7-56 | A listener and exactly one normalization task exist exactly when a slot was found. No flag is set and nothing has happened yet. |
| `SlotContentMixin.SlotChanged` | src/mixins/SlotContentMixin.js:13-38 | Without a listener nothing changes. Otherwise the fired flag is always set. Content is delivered at once, with change events raised, when not rendering. Otherwise exactly one deferred delivery is queued and nothing is delivered. Change events are no longer raised once the handler returns. |
| `SlotContentMixin.RunNext` | src/mixins/SlotContentMixin.js:32-53 | The oldest task leaves the queue. A deferred delivery always delivers. The normalization task sets the fired flag, and delivers only if the flag was unset, so it delivers nothing after a `slotchange`. With an empty queue nothing changes. |
| `SlotContentMixin.SetRendering` | src/mixins/SlotContentMixin.js:29 | Only the rendering flag that the listener consults changes. |
| `SlotContentMixin.NormalizationDeliversAtMostOnce` | src/mixins/SlotContentMixin.js:13-53 | For every event sequence after construction, the normalization task delivers at most once and never after a `slotchange` reached the listener. A delivery raises change events exactly when it comes from inside the listener, so a deferred delivery runs with the flag false. Without a slot nothing is ever queued or delivered. |
| `SlotContentMixin.NormalizationDeliversInitialContent` | src/mixins/SlotContentMixin.js:46-53 | In a host that never fires `slotchange`, once a microtask has run there has been exactly one delivery, synthesized by the normalization task without raising change events. |
| `SlotContentMixin.LateSlotChangeDeliversAgain` | src/mixins/SlotContentMixin.js:13-53 | After any event sequence in which the normalization task has delivered, while the component is not rendering, a further `slotchange` appends a second delivery that raises change events. The normalization count stays one, and the `slotchange` deliveries grow by one. |
| `SlotContentMixin.LateSlotChangeExample` | src/mixins/SlotContentMixin.js:13-53 | A concrete run of this: the microtask delivers the initial content, then a `slotchange` delivers it again. |
| `SlotContentMixin.FanOut` | src/mixins/SlotContentMixin.js:71-74 | One invocation per registered handler, in registration order, each with the same content. With no handlers, none. |
| `SlotContentMixin.SlotContent.constructor` | src/mixins/SlotContentMixin.js:7-56 | The listener is attached to the default slot found at construction, if any. The flags and queue are those of `Construct`. No handlers are registered and nothing has been invoked. |
| `SlotContentMixin.SlotContent.ContentSlot` | src/mixins/SlotContentMixin.js:58-65 | The default slot of the shadow root, or null when there is no shadow root or no such slot. |
| `SlotContentMixin.SlotContent.OnContentChange` | src/mixins/SlotContentMixin.js:67-70 | The new handler is appended at the end, and all earlier handlers keep their order. |
| `SlotContentMixin.SlotContent.ContentChanged` | src/mixins/SlotContentMixin.js:71-74 | The invocation log grows by exactly the fan-out of the current handlers with the given content. |
| `SlotContentMixin.SlotContent.FireSlotChange` | src/mixins/SlotContentMixin.js:13-38 | The fields move exactly as `SlotChanged` says. Content is delivered iff a listener exists and the component is not rendering. Delivered content is a new list of the slot's current assigned nodes, or null without a slot, and goes to every handler. |
| `SlotContentMixin.SlotContent.RunNextTask` | src/mixins/SlotContentMixin.js:32-53 | The fields move exactly as `RunNext` says. Content is delivered iff the task run was a deferred delivery, or was the normalization task with the fired flag unset. The content is read from the slot when the task runs. |
| `SlotContentMixin.SlotContent.SetRenderingFlag` | src/mixins/SlotContentMixin.js:29 | The fields move exactly as `SetRendering` says. |
| `SlotContentMixin.AssignedNodesChanged` | src/mixins/SlotContentMixin.js:84-96 | Delivers null content when there is no slot. Otherwise it delivers a new frozen list of the slot's assigned nodes, to every handler in order. |
| `SlotContentMixin.ObserverGuarantees` | src/mixins/SlotContentMixin.js:13-53 | Every `SlotContent` object driven only by its methods has the guarantees of `NormalizationDeliversAtMostOnce`. |

## Left out

- `console.warn` in `_contentSlot` (src/mixins/SlotContentMixin.js:58-65) is diagnostic output. Only the slot it returns is modelled.
- `onSlotChange` (src/mixins/SlotContentMixin.js:77-79) only registers a raw DOM listener. DOM event dispatch is not modelled beyond the component's own `slotchange` listener.
- `addEventListener`, `querySelector` and `assignedNodes({flatten: true})` are not modelled. A slot's flattened assigned nodes are its `assignedNodes` field, which the host may change between stimuli.
- Microtask scheduling is not modelled. The component's deferred callbacks form its own FIFO queue, and other work on the page may run between them only through the component's methods.
- Handlers are assumed to return normally. A throwing handler stops the fan-out at src/mixins/SlotContentMixin.js:73, so later handlers are not called. Inside the listener it also leaves `raiseChangeEvents` set, because src/mixins/SlotContentMixin.js:20-37 has no try/finally. Neither is modelled, and `Consistent`'s `!raising` and `RaisingMatchesCause` rely on it.
- Handlers are opaque. A handler that re-enters the component (registers a handler, fires an event, changes the rendering flag) is not modelled.
- The `raiseChangeEvents` and `rendering` flags are shared with layers that are not part of this model. Only this mixin's writes to `raiseChangeEvents` are modelled, and `rendering` changes only through `SetRenderingFlag`.
- Substantive: content.js is not part of this model, so `substantiveElements` is assumed to keep the content's own nodes that a per-node test accepts. The contract states membership and length, not the order that the body keeps.
- updates.js is not part of this model. `updates.current` and `updates.apply` are function values. A lower layer's `itemCalcs` and `itemUpdates` are functions of their arguments only and cannot read other state of the page.
- The content is assumed to be a list or `null`, never `undefined`. With `undefined` content on the first read, the source compares `undefined !== undefined` (src/mixins/ContentItemsMixin.js:65), so `items` returns the unset memo (`undefined`). It does not call `itemsForState` or record the content. `Items` has no such case: for null content it calls `itemsForState` once and remembers `null`.
- The `this.content` getter and the state machinery that stores delivered content (`setState`, the render scheduler) are not part of this model. `Items` and `Render` take the current content as a parameter. `ContentItems` and `SlotContent` are separate classes; the first inherits nothing from the second except through that content.
- The lower layer's render (src/mixins/ContentItemsMixin.js:117) is only logged. It is assumed not to touch the items, their originals or props, or the memo, so the items read after it are those read before.
- `Render` uses this layer's `itemCalcs` and `itemUpdates`. A higher layer overriding them through `this` is not modelled.
- The guard `if (this.itemUpdates)` (src/mixins/ContentItemsMixin.js:118) is always true for this class and is not modelled.
- `Object.freeze` is modelled by the `const` field of `NodeList`.
- The listener stays attached to the slot found at construction. A shadow tree that later gains or loses its slot changes only what `AssignedNodesChanged` reads.
