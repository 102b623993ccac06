# ECS terminal UI runtime — Dafny model

This project models the sequential logic of the interactive ECS screen of
`raws`, a command-line tool for AWS ECS. The modelled parts are:

- the input source, which turns the terminal event stream into runtime
  `Event`s. Only key presses pass, and read errors become `Error`.
- the application runtime. It turns events into `Action`s on the action
  channel, drains that channel, and latches `should_quit`, which ends the run
  loop.
- the default behaviour that every UI component inherits.
- the cluster table, with its selection cursor moved by `j` and `k`.
- the context panel, which projects the state snapshot into its props.
- the construction of cluster rows from ARNs, and the default state snapshot.

Channels are FIFO queues held in `seq` fields. The action channel is a small
class (`Channels.ActionChannel`), so that a component's registered sender and
the runtime's receiver are the same queue. Raw terminal events are a
datatype that stands in for the terminal library's types.

The code base has two `Action` enums in the middle of a refactoring. One, in
`components/component.rs`, lacks `GetContextInfo`; the other, in
`state_store/action.rs`, has it. The model uses one `Action` datatype that is
their union.

Files: `events.dfy` (value types), `channels.dfy` (action channel),
`component.dfy` (component defaults), `state.dfy` (cluster rows and state),
`clusters.dfy` (cluster table), `context.dfy` (context panel), `input.dfy`
(input source), `app.dfy` (runtime).

Behaviour of the code that the model keeps as written:

- With no cursor, `next` selects row 0 even when there are no rows
  (`crates/libecs/src/components/clusters.rs:51`).
- With a cursor set, `next` computes `len() - 1` on an unsigned length
  (`clusters.rs:45`), and with no cursor `previous` does the same
  (`clusters.rs:65`). On an empty list both panic in a debug build. The model
  makes these two cases preconditions of `NextIndex` and `PreviousIndex`.
- `clusters.rs` builds its three placeholder rows with a `name` only, but
  `ClusterItem` also has an `arn` field. The model gives these rows an empty
  ARN; the table draws names only.

## Model

| member | source | states |
|---|---|---|
| Channels.ActionChannel.Send | crates/libecs/src/app.rs:134 | a send appends the action at the end of the queue |
| Channels.ActionChannel.TryRecv | crates/libecs/src/app.rs:154 | a non-blocking receive yields the oldest action and removes it, or nothing when the queue is empty |
| Component.DefaultKeyHook | crates/libecs/src/components/component.rs:46-49 | the default key hook answers `Noop` for every key |
| Component.DefaultMouseHook | crates/libecs/src/components/component.rs:50-53 | the default mouse hook answers `Noop` for every mouse event |
| Component.DefaultUpdate | crates/libecs/src/components/component.rs:54-57 | the default `update` answers `Noop` whatever the action |
| Component.HandleEvents | crates/libecs/src/components/component.rs:39-45 | a key event gets the key hook's answer, a mouse event the mouse hook's, and no event or any other event gets `Noop` |
| Component.DefaultHandleEventsIsNoop | crates/libecs/src/components/component.rs:39-53 | with both hooks at their defaults, dispatch answers `Noop` for every input |
| Component.DefaultInit | crates/libecs/src/components/component.rs:32-34 | the default `init` succeeds and changes neither the component nor the pending actions |
| Component.DefaultRegisterActionHandler | crates/libecs/src/components/component.rs:35-38 | the default `register_action_handler` succeeds and leaves the component as it was |
| StateStore.SplitOnce | crates/libecs/src/state_store/state.rs:9 | splitting at the first `/` fails exactly when there is no `/`; otherwise the text is the prefix, `/` and the suffix, and the prefix has no `/` |
| StateStore.SplitOnceUnique | crates/libecs/src/state_store/state.rs:9 | any decomposition `before + "/" + after` with a `/`-free `before` is the one the split returns |
| StateStore.ClusterItemFrom | crates/libecs/src/state_store/state.rs:7-15 | requires a `/` (the source's `unwrap` panics otherwise); keeps the ARN verbatim; the name is the text after the first `/` and is strictly shorter than the ARN |
| StateStore.ClusterItemDecomposes | crates/libecs/src/state_store/state.rs:9-12 | the ARN equals `prefix + "/" + name` for a `/`-free prefix |
| StateStore.ClusterItemFromComposed | crates/libecs/src/state_store/state.rs:8-13 | the row built from `prefix/name` with a `/`-free prefix has exactly that ARN and name `name` |
| StateStore.DefaultState | crates/libecs/src/state_store/state.rs:17-21 | the default snapshot has no caller ARN and no cluster ARNs |
| ClusterTable.NextIndex | crates/libecs/src/components/clusters.rs:42-54 | an unset cursor goes to 0; a cursor below the last row moves down one; one at or past the last row stays; requires rows when a cursor is set (unsigned `len - 1`); an in-range cursor stays in range |
| ClusterTable.PreviousIndex | crates/libecs/src/components/clusters.rs:56-68 | an unset cursor goes to the last row; row 0 stays; any other row moves up one; requires rows when no cursor is set (unsigned `len - 1`); an in-range cursor stays in range |
| ClusterTable.PreviousUndoesNext | crates/libecs/src/components/clusters.rs:42-68 | `previous` undoes a `next` that moved the cursor |
| ClusterTable.NextUndoesPrevious | crates/libecs/src/components/clusters.rs:42-68 | `next` undoes a `previous` that moved the cursor |
| ClusterTable.NextTimesSaturates | crates/libecs/src/components/clusters.rs:42-54 | `n` presses of `next` from row `i` reach row `min(i + n, len - 1)` |
| ClusterTable.NextTimesFromUnset | crates/libecs/src/components/clusters.rs:42-54 | `n > 0` presses of `next` from no cursor reach row `min(n - 1, len - 1)` |
| ClusterTable.PreviousTimesSaturates | crates/libecs/src/components/clusters.rs:56-68 | `n` presses of `previous` from row `i` reach row `max(i - n, 0)` |
| ClusterTable.PreviousTimesFromUnset | crates/libecs/src/components/clusters.rs:56-68 | `n > 0` presses of `previous` from no cursor reach row `max(len - n, 0)` |
| ClusterTable.SelectionAfterKey | crates/libecs/src/components/clusters.rs:89-105 | only a press of `j` or `k` moves the cursor, every other key leaves it as it was, and an in-range cursor stays in range |
| ClusterTable.Clusters.constructor | crates/libecs/src/components/clusters.rs:24-40 | no cursor, no sender, and exactly the rows develop, staging, production in that order |
| ClusterTable.Clusters.Next | crates/libecs/src/components/clusters.rs:42-54 | the cursor becomes `Some(NextIndex(..))`; rows and sender are unchanged |
| ClusterTable.Clusters.Previous | crates/libecs/src/components/clusters.rs:56-68 | the cursor becomes `Some(PreviousIndex(..))`; rows and sender are unchanged |
| ClusterTable.Clusters.RegisterActionHandler | crates/libecs/src/components/clusters.rs:72-75 | stores the sender; cursor and rows are unchanged |
| ClusterTable.Clusters.Init | crates/libecs/src/components/clusters.rs:77-82 | with a sender registered, exactly one `GetClusters` is appended to its queue |
| ClusterTable.Clusters.Update | crates/libecs/src/components/clusters.rs:84-87 | the action is returned unchanged |
| ClusterTable.Clusters.HandleKeyEvent | crates/libecs/src/components/clusters.rs:89-105 | always answers `Noop`; a non-press leaves the cursor; a press of `k` acts as `previous`, of `j` as `next`; rows and sender are unchanged |
| ClusterTable.Clusters.HandleEvents | crates/libecs/src/components/component.rs:39-45 | the inherited dispatch on the table: always `Noop`, and only a key event can move the cursor |
| ContextPanel.PropsFrom | crates/libecs/src/components/context.rs:20-26 | the props carry exactly the snapshot's caller ARN |
| ContextPanel.PropsFromDependsOnCallerArnOnly | crates/libecs/src/components/context.rs:20-26 | two snapshots give equal props if and only if their caller ARNs are equal |
| ContextPanel.DisplayedArn | crates/libecs/src/components/context.rs:62-64 | the shown text is the ARN when present and `""` when absent |
| ContextPanel.DisplayedArnOfState | crates/libecs/src/components/context.rs:35-37 | after a snapshot is applied, the panel shows that snapshot's caller ARN, or `""` |
| ContextPanel.Context.constructor | crates/libecs/src/components/context.rs:28-32 | the default panel has no sender and no ARN |
| ContextPanel.Context.SetState | crates/libecs/src/components/context.rs:35-37 | the props are replaced wholesale by the projection of the snapshot, independent of the old props (so applying a snapshot twice equals once); the sender is unchanged |
| ContextPanel.Context.RegisterActionHandler | crates/libecs/src/components/context.rs:39-42 | stores the sender; the props are unchanged |
| ContextPanel.Context.Init | crates/libecs/src/components/context.rs:44-49 | with a sender registered, exactly one `GetContextInfo` is appended to its queue |
| ContextPanel.Context.ShownArn | crates/libecs/src/components/context.rs:62-64 | the drawn value is the displayed ARN of the current props |
| InputSource.MapRead | crates/libecs/src/app.rs:103-113 | an item is dropped exactly when it is a non-press key; `Init`, `Quit` and `Tick` never come from the stream; a read error, and only a read error, becomes `Error` |
| InputSource.MapReadInverse | crates/libecs/src/app.rs:103-112 | the mapping is one-to-one: a forwarded event determines its raw item, with its payload, and every pressed key, other raw event or error is forwarded |
| InputSource.Forwarded | crates/libecs/src/app.rs:100-119 | the forwarded stream is no longer than the input, holds no non-press key and no `Init` |
| InputSource.ForwardedAppend | crates/libecs/src/app.rs:100-119 | forwarding is item by item: two stretches forward the concatenation of their events |
| InputSource.ForwardedKeepsErrors | crates/libecs/src/app.rs:104-112 | the forwarded stream is shorter than the input by exactly the number of key releases and repeats, and a read error never ends the stream: it arrives as `Error` |
| InputSource.EventLoop | crates/libecs/src/app.rs:94-120 | sends `Init` first and then the forwarded events in order; it stops at the end of the stream or on the first failed send, and that send's event is lost |
| Runtime.KeyActions | crates/libecs/src/app.rs:143-151 | sends `Quit` exactly for a press of `q`, and nothing otherwise |
| Runtime.EventActions | crates/libecs/src/app.rs:127-141 | `Quit` is sent exactly for the `Quit` event or a pressed `q`; `Tick` exactly for `Tick`; other events send nothing |
| Runtime.FirstQuit | crates/libecs/src/app.rs:82-89 | the position of the first event that asks to quit: no earlier event does, and the event there does |
| Runtime.App.constructor | crates/libecs/src/app.rs:57-71 | not quitting, an empty ARN, and empty event and action queues |
| Runtime.App.Deliver | crates/libecs/src/app.rs:116 | a send from the input task appends the event to the event queue |
| Runtime.App.HandleKeyEvent | crates/libecs/src/app.rs:143-151 | appends `KeyActions(key)` to the action queue |
| Runtime.App.HandleEvents | crates/libecs/src/app.rs:127-141 | with no event queued nothing happens; otherwise the first event is removed and its actions are appended |
| Runtime.App.HandleActions | crates/libecs/src/app.rs:153-167 | empties the action queue; `should_quit` afterwards is true iff it was already true or a `Quit` was drained; nothing else changes |
| Runtime.App.Run | crates/libecs/src/app.rs:73-92 | `iam_arn` becomes the ARN the identity lookup returned; the loop ends right after the first round that sets `should_quit`, having consumed exactly the events up to and including the first quitting one; without a quit it consumes every queued event; the action queue ends empty |

## Left out

- Terminal setup and teardown (raw mode, alternate screen) in `run_app`: I/O.
- All drawing and layout: `draw`, `render_frame`, `draw_context`,
  `draw_content_block`, the table and list widgets, and `ui.rs`. These are
  library rendering calls. Only the value choice of the context panel's
  `draw` is modelled (`DisplayedArn`).
- `get_caller_identity` and every other AWS call. These are foreign calls.
  `Run` takes the ARN the identity lookup returns as its parameter
  `callerArn`; the lookup's `unwrap` panics on failure are not modelled.
- `state_store/state_store.rs`. Its only step is an AWS call, and it writes a
  `context_info` field that `State` does not have.
- The termination module named in `lib.rs`: its source is not part of this
  model.
- The tokio tasks and their interleaving: spawning, aborting and the
  cross-task channel. The input task's output is delivered to the runtime
  through `Deliver`, one event at a time, before `Run` reads it.
- Runtime.App.HandleEvents: the source's `recv().await` waits when no event is queued. The model does nothing
  in that case.
- Runtime.App.Run: where the source would wait for more input, the model stops once the event queue is drained.
- Send failures on the action channel (`?` on `send`): the runtime holds the
  receiver for its whole life, so these sends cannot fail and are not
  modelled.
- The `.expect` panic when the `Init` send fails: `EventLoop` requires that
  the first send succeeds.
- Debug printing (`println!`) in `update` and `handle_actions`: output only.
- Key modifiers and key state, and all mouse fields but kind and position:
  no core code reads them.
- The scroll offset of the table's selection state: only the selected index
  is modelled.
- The unsigned `len() - 1` underflow is modelled as a debug-build panic,
  hence a precondition; the wrap-around of a release build is not modelled.
- `src/ecs.rs` (an older poll loop with the same `q` check),
  `ecs_exec_checker.rs`, `main.rs` and the `raws` crate: AWS calls, CLI
  parsing and module wiring.
