/**
 The cluster table: a list of cluster rows and a selection cursor that the
 `j` and `k` keys move.
 */
module ClusterTable {
  import opened Events
  import opened Channels
  import opened StateStore
  import Component

  /** The cursor is unset or on an existing row. */
  predicate InRange(sel: Option<nat>, len: nat) {
    sel.Some? ==> sel.value < len
  }

  /**
   The cursor after `next`: an unset cursor goes to the first row, and a set
   one moves down one row but never past the last row. With a cursor set, the
   source computes `len - 1` on an unsigned length, hence the precondition.
   */
  function NextIndex(sel: Option<nat>, len: nat): (j: nat)
    requires sel.Some? ==> len > 0
    ensures sel.None? ==> j == 0
    ensures sel.Some? && sel.value < len - 1 ==> j == sel.value + 1
    ensures sel.Some? && sel.value >= len - 1 ==> j == sel.value
    ensures len > 0 && InRange(sel, len) ==> j < len
  {
    match sel
    case Some(i) => if i >= len - 1 then i else i + 1
    case None => 0
  }

  /**
   The cursor after `previous`: an unset cursor goes to the last row, and a
   set one moves up one row but never above the first. With no cursor set, the
   source computes `len - 1` on an unsigned length, hence the precondition.
   */
  function PreviousIndex(sel: Option<nat>, len: nat): (j: nat)
    requires sel.None? ==> len > 0
    ensures sel.None? ==> j == len - 1
    ensures sel == Some(0) ==> j == 0
    ensures sel.Some? && sel.value > 0 ==> j == sel.value - 1
    ensures len > 0 && InRange(sel, len) ==> j < len
  {
    match sel
    case Some(i) => if i == 0 then i else i - 1
    case None => len - 1
  }

  /** `previous` undoes a `next` that moved the cursor. */
  lemma PreviousUndoesNext(i: nat, len: nat)
    requires i + 1 < len
    ensures PreviousIndex(Some(NextIndex(Some(i), len)), len) == i
  {
  }

  /** `next` undoes a `previous` that moved the cursor. */
  lemma NextUndoesPrevious(i: nat, len: nat)
    requires 0 < i < len
    ensures NextIndex(Some(PreviousIndex(Some(i), len)), len) == i
  {
  }

  /** The cursor after `n` presses of `next`. */
  function NextTimes(sel: Option<nat>, len: nat, n: nat): Option<nat>
    requires len > 0
    decreases n
  {
    if n == 0 then sel else NextTimes(Some(NextIndex(sel, len)), len, n - 1)
  }

  /** The cursor after `n` presses of `previous`. */
  function PreviousTimes(sel: Option<nat>, len: nat, n: nat): Option<nat>
    requires len > 0
    decreases n
  {
    if n == 0 then sel else PreviousTimes(Some(PreviousIndex(sel, len)), len, n - 1)
  }

  /** From a row, `n` presses of `next` go `n` rows down, stopping at the last row. */
  lemma {:induction false} NextTimesSaturates(i: nat, len: nat, n: nat)
    requires i < len
    ensures NextTimes(Some(i), len, n) == Some(Min(i + n, len - 1))
    decreases n
  {
    if n > 0 {
      NextTimesSaturates(NextIndex(Some(i), len), len, n - 1);
    }
  }

  /** From an unset cursor, `n > 0` presses of `next` reach row `n - 1`, or the last row. */
  lemma NextTimesFromUnset(len: nat, n: nat)
    requires len > 0 && n > 0
    ensures NextTimes(None, len, n) == Some(Min(n - 1, len - 1))
  {
    NextTimesSaturates(0, len, n - 1);
  }

  /** From a row, `n` presses of `previous` go `n` rows up, stopping at the first row. */
  lemma {:induction false} PreviousTimesSaturates(i: nat, len: nat, n: nat)
    requires i < len
    ensures PreviousTimes(Some(i), len, n) == Some(Max(i - n, 0))
    decreases n
  {
    if n > 0 {
      PreviousTimesSaturates(PreviousIndex(Some(i), len), len, n - 1);
    }
  }

  /** From an unset cursor, `n > 0` presses of `previous` reach row `len - n`, or the first row. */
  lemma PreviousTimesFromUnset(len: nat, n: nat)
    requires len > 0 && n > 0
    ensures PreviousTimes(None, len, n) == Some(Max(len - n, 0))
  {
    PreviousTimesSaturates(len - 1, len, n - 1);
  }

  /** The key moves the cursor down (`j`) or up (`k`) only when it is a press. */
  predicate MovesDown(key: KeyEvent) { key.kind == Press && key.code == Char('j') }
  predicate MovesUp(key: KeyEvent) { key.kind == Press && key.code == Char('k') }

  /** The table's key handling does not reach an unsigned underflow. */
  predicate KeyHandled(sel: Option<nat>, len: nat, key: KeyEvent) {
    && (MovesDown(key) ==> (sel.Some? ==> len > 0))
    && (MovesUp(key) ==> (sel.None? ==> len > 0))
  }

  /** The cursor after the table handled `key`. */
  function SelectionAfterKey(sel: Option<nat>, len: nat, key: KeyEvent): (r: Option<nat>)
    requires KeyHandled(sel, len, key)
    ensures !MovesDown(key) && !MovesUp(key) ==> r == sel
    ensures len > 0 && InRange(sel, len) ==> InRange(r, len)
  {
    if MovesUp(key) then Some(PreviousIndex(sel, len))
    else if MovesDown(key) then Some(NextIndex(sel, len))
    else sel
  }

  class Clusters {
    /** The action sender, once one is registered. */
    var commandTx: ActionChannel?
    /** The table cursor. */
    var selected: Option<nat>
    /** The rows of the table. */
    var items: seq<ClusterItem>

    /** No cursor, no sender, and the three placeholder clusters in display order. */
    constructor ()
      ensures commandTx == null && selected == None
      ensures items == [ClusterItem("", "develop"), ClusterItem("", "staging"), ClusterItem("", "production")]
    {
      commandTx := null;
      selected := None;
      items := [ClusterItem("", "develop"), ClusterItem("", "staging"), ClusterItem("", "production")];
    }

    /** Moves the cursor down one row, stopping at the last. */
    method Next()
      requires selected.Some? ==> |items| > 0
      modifies this
      ensures items == old(items) && commandTx == old(commandTx)
      ensures selected == Some(NextIndex(old(selected), |items|))
    {
      selected := Some(NextIndex(selected, |items|));
    }

    /** Moves the cursor up one row, stopping at the first. */
    method Previous()
      requires selected.None? ==> |items| > 0
      modifies this
      ensures items == old(items) && commandTx == old(commandTx)
      ensures selected == Some(PreviousIndex(old(selected), |items|))
    {
      selected := Some(PreviousIndex(selected, |items|));
    }

    /** Keeps `tx` as the action sender. */
    method RegisterActionHandler(tx: ActionChannel)
      modifies this
      ensures commandTx == tx
      ensures selected == old(selected) && items == old(items)
    {
      commandTx := tx;
    }

    /** Asks for the cluster list: one `GetClusters` is sent when a sender is registered. */
    method Init()
      modifies commandTx
      ensures commandTx != null ==> commandTx.queue == old(commandTx.queue) + [Action.GetClusters]
    {
      if commandTx != null {
        commandTx.Send(Action.GetClusters);
      }
    }

    /** The table echoes every action it is given. */
    method Update(action: Action) returns (r: Action)
      ensures r == action
    {
      r := action;
    }

    /** `k` moves the cursor up, `j` down, on a press only; the answer is always `Noop`. */
    method HandleKeyEvent(key: KeyEvent) returns (r: Action)
      requires KeyHandled(selected, |items|, key)
      modifies this
      ensures items == old(items) && commandTx == old(commandTx)
      ensures r == Action.Noop
      ensures selected == SelectionAfterKey(old(selected), |items|, key)
    {
      if key.kind != Press {
        return Action.Noop;
      }
      match key.code
      case Char('k') =>
        Previous();
        r := Action.Noop;
      case Char('j') =>
        Next();
        r := Action.Noop;
      case _ =>
        r := Action.Noop;
    }

    /**
     The inherited dispatch: key events reach the table's key handling, mouse
     events the default mouse hook; the answer is always `Noop`, and only a key
     event can move the cursor.
     */
    method HandleEvents(event: Option<Event>) returns (r: Action)
      requires event.Some? && event.value.Key? ==> KeyHandled(selected, |items|, event.value.key)
      modifies this
      ensures items == old(items) && commandTx == old(commandTx)
      ensures r == Action.Noop
      ensures event.Some? && event.value.Key? ==> selected == SelectionAfterKey(old(selected), |items|, event.value.key)
      ensures !(event.Some? && event.value.Key?) ==> selected == old(selected)
    {
      match event
      case Some(Key(k)) =>
        r := HandleKeyEvent(k);
      case Some(Mouse(m)) =>
        r := Component.DefaultMouseHook(m);
      case _ =>
        r := Action.Noop;
    }
  }
}
