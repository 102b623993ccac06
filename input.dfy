/**
 The input source: reads the terminal event stream, turns each item into a
 runtime event (or drops it), and sends the result to the application.
 */
module InputSource {
  import opened Events

  /**
   The runtime event for one item of the terminal stream: only key presses
   are forwarded, every other raw event keeps its payload, and a read error
   becomes `Error`.
   */
  function MapRead(r: ReadResult): (e: Option<Event>)
    ensures e.None? <==> r.Read? && r.event.RawKey? && r.event.key.kind != Press
    ensures e.Some? ==> !e.value.Init? && !e.value.Quit? && !e.value.Tick?
    ensures e.Some? && e.value.Key? ==> e.value.key.kind == Press
    ensures e == Some(Event.Error) <==> r.ReadError?
  {
    match r
    case ReadError => Some(Event.Error)
    case Read(event) =>
      match event
      case RawKey(key) => if key.kind == Press then Some(Event.Key(key)) else None
      case RawMouse(mouse) => Some(Event.Mouse(mouse))
      case RawResize(x, y) => Some(Event.Resize(x, y))
      case FocusLost => Some(Event.FocusLost)
      case FocusGained => Some(Event.FocusGained)
      case RawPaste(s) => Some(Event.Paste(s))
  }

  /** The stream item a runtime event stands for; the events the stream never produces have none. */
  function Origin(e: Event): Option<ReadResult> {
    match e
    case Key(key) => Some(Read(RawKey(key)))
    case Mouse(mouse) => Some(Read(RawMouse(mouse)))
    case Resize(x, y) => Some(Read(RawResize(x, y)))
    case FocusLost => Some(Read(RawEvent.FocusLost))
    case FocusGained => Some(Read(RawEvent.FocusGained))
    case Paste(s) => Some(Read(RawPaste(s)))
    case Error => Some(ReadError)
    case _ => None
  }

  /** The mapping is one-to-one: a forwarded event determines the item it came from, and every pressed key, other raw event or error is forwarded. */
  lemma MapReadInverse(r: ReadResult, e: Event)
    ensures MapRead(r) == Some(e) ==> Origin(e) == Some(r)
    ensures Origin(e) == Some(r) && (e.Key? ==> e.key.kind == Press) ==> MapRead(r) == Some(e)
  {
  }

  /** The events forwarded for a stretch of the stream, in order. */
  function Forwarded(input: seq<ReadResult>): (out: seq<Event>)
    ensures |out| <= |input|
    ensures forall i :: 0 <= i < |out| ==> out[i].Key? ==> out[i].key.kind == Press
    ensures forall i :: 0 <= i < |out| ==> !out[i].Init?
  {
    if input == [] then []
    else
      var rest := Forwarded(input[1..]);
      match MapRead(input[0])
      case Some(e) => [e] + rest
      case None => rest
  }

  /** Forwarding a stream in two stretches forwards the concatenation of the two. */
  lemma {:induction false} ForwardedAppend(a: seq<ReadResult>, b: seq<ReadResult>)
    ensures Forwarded(a + b) == Forwarded(a) + Forwarded(b)
  {
    if a == [] {
      assert a + b == b;
    } else {
      assert (a + b)[0] == a[0] && (a + b)[1..] == a[1..] + b;
      ForwardedAppend(a[1..], b);
    }
  }

  /** Every read error in the stream reaches the application as an `Error` event: errors never end the stream. */
  lemma {:induction false} ForwardedKeepsErrors(input: seq<ReadResult>)
    ensures |Forwarded(input)| == |input| - KeyDrops(input)
    ensures ReadError in input ==> Event.Error in Forwarded(input)
  {
    if input != [] {
      ForwardedKeepsErrors(input[1..]);
    }
  }

  /** The item is a key release or a key repeat. */
  predicate IsNonPressKey(r: ReadResult) {
    match r
    case Read(RawKey(k)) => k.kind != Press
    case _ => false
  }

  /** How many items of the stream are key releases or repeats. */
  function KeyDrops(input: seq<ReadResult>): nat {
    if input == [] then 0
    else (if IsNonPressKey(input[0]) then 1 else 0) + KeyDrops(input[1..])
  }

  /** What one stream item contributes to the forwarded events. */
  function Emitted(r: ReadResult): seq<Event> {
    match MapRead(r)
    case Some(e) => [e]
    case None => []
  }

  /** Reading one more item extends the forwarded events by what that item emits. */
  lemma ForwardedStep(input: seq<ReadResult>, i: nat)
    requires i < |input|
    ensures Forwarded(input[..i + 1]) == Forwarded(input[..i]) + Emitted(input[i])
  {
    assert input[..i + 1] == input[..i] + [input[i]];
    ForwardedAppend(input[..i], [input[i]]);
  }

  /** When the send of the item just read fails, what was sent is a proper prefix of everything. */
  lemma StoppedEarly(input: seq<ReadResult>, i: nat, sent: seq<Event>)
    requires i < |input| && Emitted(input[i]) != []
    requires sent == [Event.Init] + Forwarded(input[..i])
    ensures var all := [Event.Init] + Forwarded(input);
      |sent| < |all| && all[..|sent|] == sent
  {
    assert input == input[..i + 1] + input[i + 1..];
    ForwardedAppend(input[..i + 1], input[i + 1..]);
    ForwardedStep(input, i);
  }

  /**
   The input task: sends `Init`, then the forwarded events of `input` until
   the stream ends or a send fails. The receiver takes `sendsBeforeClose`
   sends before it is gone; the `Init` send must succeed, as the source
   panics otherwise. `sendFailed` tells whether the loop stopped on a failed
   send rather than at the end of the stream.
   */
  method EventLoop(input: seq<ReadResult>, sendsBeforeClose: nat) returns (sent: seq<Event>, sendFailed: bool)
    requires sendsBeforeClose > 0
    ensures var all := [Event.Init] + Forwarded(input);
      && sendFailed == (sendsBeforeClose < |all|)
      && sent == all[..Min(sendsBeforeClose, |all|)]
  {
    sent := [Event.Init];
    sendFailed := false;
    var i := 0;
    while i < |input|
      invariant 0 <= i <= |input|
      invariant sent == [Event.Init] + Forwarded(input[..i])
      invariant |sent| <= sendsBeforeClose
    {
      var e := MapRead(input[i]);
      if e.Some? && |sent| == sendsBeforeClose {
        StoppedEarly(input, i, sent);
        sendFailed := true;
        return;
      }
      ForwardedStep(input, i);
      if e.Some? {
        sent := sent + [e.value];
      }
      i := i + 1;
    }
    assert input[..i] == input;
  }
}
