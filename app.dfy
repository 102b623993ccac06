/**
 The application runtime: the event queue it reads, the action channel it
 drains, and the `should_quit` latch that ends its run loop.
 */
module Runtime {
  import opened Events
  import opened Channels

  /** The quit key binding: a press of `q`. */
  predicate IsQuitKey(key: KeyEvent) {
    key.kind == Press && key.code == Char('q')
  }

  /** The actions the runtime's key handling sends for `key`. */
  function KeyActions(key: KeyEvent): (r: seq<Action>)
    ensures r == [] || r == [Action.Quit]
    ensures r == [Action.Quit] <==> IsQuitKey(key)
  {
    if IsQuitKey(key) then [Action.Quit] else []
  }

  /** The actions the runtime sends for one runtime event. */
  function EventActions(e: Event): (r: seq<Action>)
    ensures |r| <= 1
    ensures Action.Quit in r <==> e.Quit? || (e.Key? && IsQuitKey(e.key))
    ensures Action.Tick in r <==> e.Tick?
    ensures !(e.Quit? || e.Tick? || (e.Key? && IsQuitKey(e.key))) ==> r == []
  {
    match e
    case Quit => [Action.Quit]
    case Tick => [Action.Tick]
    case Key(key) => KeyActions(key)
    case _ => []
  }

  /** The event makes the runtime ask to quit. */
  predicate Quits(e: Event) {
    Action.Quit in EventActions(e)
  }

  /** The position of the first quitting event, or the length when there is none. */
  function FirstQuit(events: seq<Event>): (n: nat)
    ensures n <= |events|
    ensures forall j :: 0 <= j < n ==> !Quits(events[j])
    ensures n < |events| ==> Quits(events[n])
  {
    if events == [] then 0
    else if Quits(events[0]) then 0
    else 1 + FirstQuit(events[1..])
  }

  class App {
    /** The caller's IAM ARN as shown by the context band. */
    var iamArn: string
    /** Set once a `Quit` action has been handled; never cleared. */
    var shouldQuit: bool
    /** The events sent by the input task and not yet received. */
    var events: seq<Event>
    /** The action channel; the runtime holds both its sender and its receiver. */
    const actions: ActionChannel

    /** A fresh runtime: not quitting, no ARN, and both queues empty. */
    constructor ()
      ensures !shouldQuit && iamArn == "" && events == []
      ensures fresh(actions) && actions.queue == []
    {
      iamArn := "";
      shouldQuit := false;
      events := [];
      actions := new ActionChannel();
    }

    /** The input task's send: `e` joins the end of the event queue. */
    method Deliver(e: Event)
      modifies this
      ensures events == old(events) + [e]
      ensures shouldQuit == old(shouldQuit) && iamArn == old(iamArn)
    {
      events := events + [e];
    }

    /** Sends `Quit` for a press of `q`, and nothing for any other key. */
    method HandleKeyEvent(key: KeyEvent)
      modifies actions
      ensures actions.queue == old(actions.queue) + KeyActions(key)
    {
      if IsQuitKey(key) {
        actions.Send(Action.Quit);
      }
    }

    /**
     Receives one event, if one is queued, and sends the actions it calls for:
     `Quit` and `Tick` pass through, keys go to the key handling, and every
     other event sends nothing.
     */
    method HandleEvents()
      modifies this, actions
      ensures shouldQuit == old(shouldQuit) && iamArn == old(iamArn)
      ensures old(events) == [] ==> events == [] && actions.queue == old(actions.queue)
      ensures old(events) != [] ==>
        events == old(events)[1..] && actions.queue == old(actions.queue) + EventActions(old(events)[0])
    {
      if events == [] {
        return;
      }
      var event := events[0];
      events := events[1..];
      match event
      case Quit => actions.Send(Action.Quit);
      case Tick => actions.Send(Action.Tick);
      case Key(key) => HandleKeyEvent(key);
      case _ =>
    }

    /** Drains the action channel; `should_quit` is latched when a `Quit` was among the drained actions. */
    method HandleActions()
      modifies this, actions
      ensures actions.queue == []
      ensures shouldQuit == (old(shouldQuit) || Action.Quit in old(actions.queue))
      ensures events == old(events) && iamArn == old(iamArn)
    {
      while true
        invariant events == old(events) && iamArn == old(iamArn)
        invariant (shouldQuit || Action.Quit in actions.queue) == (old(shouldQuit) || Action.Quit in old(actions.queue))
        decreases |actions.queue|
      {
        ghost var before := actions.queue;
        var next := actions.TryRecv();
        if next.None? {
          break;
        }
        assert before == [next.value] + actions.queue;
        match next.value
        case Quit => shouldQuit := true;
        case Render =>
        case _ =>
      }
    }

    /**
     The run: first records `callerArn`, the ARN the identity lookup returned,
     then loops. Each round receives at most one event and drains the action
     channel, and the loop ends right after the first round that leaves
     `should_quit` set. Where the source waits for more input, the model stops:
     without a quit, the run ends with every queued event consumed. `consumed`
     is the number of events received.
     */
    method Run(callerArn: string) returns (consumed: nat)
      modifies this, actions
      ensures consumed <= |old(events)| && events == old(events)[consumed..]
      ensures actions.queue == [] && iamArn == callerArn
      ensures var quitting := old(shouldQuit) || Action.Quit in old(actions.queue);
        && shouldQuit == (quitting || FirstQuit(old(events)) < consumed)
        && (quitting ==> consumed == Min(1, |old(events)|))
        && (!quitting && shouldQuit ==> consumed == FirstQuit(old(events)) + 1)
      ensures !shouldQuit ==> events == []
    {
      iamArn := callerArn;
      ghost var all := events;
      ghost var quitting := shouldQuit || Action.Quit in actions.queue;
      consumed := 0;
      while true
        invariant consumed <= |all| && events == all[consumed..]
        invariant iamArn == callerArn
        invariant consumed == 0 ==> shouldQuit == old(shouldQuit) && actions.queue == old(actions.queue)
        invariant consumed > 0 ==> actions.queue == [] && !shouldQuit && !quitting && FirstQuit(all) >= consumed
        decreases |events|
      {
        var received := events != [];
        ghost var event := if received then events[0] else Event.Init;
        HandleEvents();
        HandleActions();
        if received {
          consumed := consumed + 1;
        }
        if shouldQuit {
          break;
        }
        if events == [] {
          break;
        }
        assert !Quits(event);
      }
    }
  }

  /** Input `Init` then a press of `q`: the run ends after both events, quitting, with nothing left queued. */
  method QuitKeyScenario()
  {
    var app := new App();
    app.Deliver(Event.Init);
    app.Deliver(Event.Key(KeyEvent(Char('q'), Press)));
    assert !Quits(Event.Init);
    assert FirstQuit(app.events) == 1;
    var consumed := app.Run("arn:aws:iam::123456789012:user/dev");
    assert consumed == 2 && app.shouldQuit && app.events == [];
  }
}
