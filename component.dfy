/**
 The default behaviour that every UI component inherits unless it overrides
 it. A component's overridable key and mouse hooks are passed in as
 functions; the methods that keep per-component state are in the modules
 of the components that override them.
 */
module Component {
  import opened Events

  /** The default key hook: ignores the key. */
  function DefaultKeyHook(key: KeyEvent): (r: Action)
    ensures r == Action.Noop
  {
    Action.Noop
  }

  /** The default mouse hook: ignores the mouse event. */
  function DefaultMouseHook(mouse: MouseEvent): (r: Action)
    ensures r == Action.Noop
  {
    Action.Noop
  }

  /** The default `update`: whatever the action, produces no follow-up action. */
  function DefaultUpdate(action: Action): (r: Action)
    ensures r == Action.Noop
  {
    Action.Noop
  }

  /**
   The default `handle_events`: a key event goes to the key hook, a mouse
   event to the mouse hook, and no event or any other event yields `Noop`.
   */
  function HandleEvents(event: Option<Event>, onKey: KeyEvent -> Action, onMouse: MouseEvent -> Action): (r: Action)
    ensures forall k :: event == Some(Event.Key(k)) ==> r == onKey(k)
    ensures forall m :: event == Some(Event.Mouse(m)) ==> r == onMouse(m)
    ensures !(event.Some? && (event.value.Key? || event.value.Mouse?)) ==> r == Action.Noop
  {
    match event
    case Some(Key(k)) => onKey(k)
    case Some(Mouse(m)) => onMouse(m)
    case _ => Action.Noop
  }

  /** With both hooks left at their defaults, `handle_events` yields `Noop` for every input. */
  lemma DefaultHandleEventsIsNoop(event: Option<Event>)
    ensures HandleEvents(event, DefaultKeyHook, DefaultMouseHook) == Action.Noop
  {
  }

  /**
   The default `init` and `register_action_handler`: both succeed and leave
   the component's state and the pending actions as they were.
   */
  function DefaultInit<S>(self: S, pending: seq<Action>): (r: (S, seq<Action>))
    ensures r.0 == self && r.1 == pending
  {
    (self, pending)
  }

  function DefaultRegisterActionHandler<S, Tx>(self: S, tx: Tx): (r: S)
    ensures r == self
  {
    self
  }
}
