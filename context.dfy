/**
 The context panel: shows the caller's IAM ARN, taken from the state
 snapshot into the panel's own props.
 */
module ContextPanel {
  import opened Events
  import opened Channels
  import opened StateStore

  /** The panel's projection of the state snapshot. */
  datatype Props = Props(arn: Option<string>)

  /** The props derived from a snapshot: its caller ARN, and nothing else of it. */
  function PropsFrom(state: State): (p: Props)
    ensures p.arn == state.callerArn
  {
    Props(state.callerArn)
  }

  /** Two snapshots with the same caller ARN give the same props, whatever their clusters. */
  lemma PropsFromDependsOnCallerArnOnly(s1: State, s2: State)
    ensures PropsFrom(s1) == PropsFrom(s2) <==> s1.callerArn == s2.callerArn
  {
  }

  /** The text shown as the IAM ARN: the ARN when known, the empty string otherwise. */
  function DisplayedArn(props: Props): (text: string)
    ensures props.arn.Some? ==> text == props.arn.value
    ensures props.arn.None? ==> text == ""
  {
    props.arn.UnwrapOr("")
  }

  /** A snapshot's caller ARN is what the panel shows once the snapshot is applied. */
  lemma DisplayedArnOfState(state: State)
    ensures DisplayedArn(PropsFrom(state)) == state.callerArn.UnwrapOr("")
  {
  }

  class Context {
    /** The action sender, once one is registered. */
    var commandTx: ActionChannel?
    /** The projection of the latest snapshot. */
    var props: Props

    /** The derived default: no sender and no ARN. */
    constructor ()
      ensures commandTx == null && props.arn == None
    {
      commandTx := null;
      props := Props(None);
    }

    /**
     Replaces the props wholesale with the projection of `state`; the snapshot
     itself is a value and is not changed. The new props do not depend on the
     old ones, so applying the same snapshot twice is the same as once.
     */
    method SetState(state: State)
      modifies this
      ensures props == PropsFrom(state)
      ensures commandTx == old(commandTx)
    {
      props := PropsFrom(state);
    }

    /** Keeps `tx` as the action sender. */
    method RegisterActionHandler(tx: ActionChannel)
      modifies this
      ensures commandTx == tx && props == old(props)
    {
      commandTx := tx;
    }

    /** Asks for the caller identity: one `GetContextInfo` is sent when a sender is registered. */
    method Init()
      modifies commandTx
      ensures commandTx != null ==> commandTx.queue == old(commandTx.queue) + [Action.GetContextInfo]
    {
      if commandTx != null {
        commandTx.Send(Action.GetContextInfo);
      }
    }

    /** The text the panel draws in its value column. */
    method ShownArn() returns (text: string)
      ensures text == DisplayedArn(props)
    {
      text := DisplayedArn(props);
    }
  }
}
