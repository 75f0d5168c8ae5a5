/** The hand-off between a controller's receive interrupt and the mainline
    (CANFunctions_first_attempt.c): the interrupt handler raises the
    "message received" flag and silences the channel's event, the mainline
    consumes one message and re-arms the event. */
module CanReceive {
  import opened PlibCan

  /** The "message received" flag a controller's interrupt handler shares
      with the mainline (isCAN1MsgReceived, isCAN2MsgReceived), together
      with the RX channel both of them use and the LED pair the mainline
      drives (on or off). */
  class RxHandoff {
    const can: CanModule
    const channel: nat
    var received: bool
    var indicator: bool

    /** While the flag is up, the channel's event is off and the channel
        holds the message the mainline will read: the read never sees the
        library's NULL. */
    ghost predicate Valid()
      reads this`received, can`cfg, can`rx, can`tx, can`events
    {
      && channel < CHANNEL_COUNT && can.Valid()
      && (received ==> channel !in can.events && can.RxQueue(channel) != [])
    }

    constructor (can: CanModule, channel: nat)
      requires can.Valid() && channel < CHANNEL_COUNT
      ensures Valid() && this.can == can && this.channel == channel && !received && !indicator
    {
      this.can, this.channel := can, channel;
      received, indicator := false, false;
    }

    /** CAN1InterruptHandler / CAN2InterruptHandler: when the RX module
        event is set and the highest-priority pending event is this
        channel's, the channel event is switched off and the flag raised;
        the interrupt flag is then cleared, which leaves it raised only
        while some enabled channel event is still pending. */
    method InterruptHandler()
      requires Valid()
      modifies this`received, can`events, can`calls, can`intFlag
      ensures Valid()
      ensures old(can.PendingFrom(0)) == ChannelEvent(channel) ==>
        && received
        && can.events == old(can.events) - {channel}
        && can.calls == old(can.calls) + [ChannelEventSet(channel, false)]
      ensures old(can.PendingFrom(0)) != ChannelEvent(channel) ==>
        received == old(received) && can.events == old(can.events) && can.calls == old(can.calls)
      ensures can.intFlag == can.Interrupting()
    {
      var rxEvent := can.GetModuleEvent();
      if rxEvent {
        var code := can.GetPendingEventCode();
        if code == ChannelEvent(channel) {
          can.EnableChannelEvent(channel, false);
          received := true;
        }
      }
      can.ClearInterruptFlag();
    }

    /** CAN1RxMsgProcess / CAN2RxMsgProcess: nothing while the flag is
        down; otherwise lower it, read the oldest message, drive the LEDs
        from its first data byte, release the message and switch the
        channel event back on. */
    method RxMsgProcess()
      requires Valid()
      modifies this`received, this`indicator, can`rx, can`tx, can`events, can`calls
      ensures Valid() && !received
      ensures !old(received) ==>
        && indicator == old(indicator) && can.rx == old(can.rx) && can.tx == old(can.tx)
        && can.events == old(can.events) && can.calls == old(can.calls)
      ensures old(received) ==>
        && indicator == (old(can.RxQueue(channel))[0].data[0] != 0)
        && can.rx == old(can.rx)[channel := old(can.RxQueue(channel))[1..]]
        && can.tx == old(can.tx)
        && can.events == old(can.events) + {channel}
        && can.calls == old(can.calls) + [RxMessageRead(channel)] + [ChannelUpdated(channel)] + [ChannelEventSet(channel, true)]
    {
      if !received {
        return;
      }
      received := false;
      var message := can.GetRxMessage(channel);
      indicator := message.value.data[0] != 0;
      can.UpdateChannel(channel);
      can.EnableChannelEvent(channel, true);
    }
  }

  /** CAN2RxMsgProcess ends, after processing a message, by calling
      CAN2TxSendRTRMsg, which is not part of this model; the call is
      reported instead. */
  method CAN2RxMsgProcess(handoff: RxHandoff) returns (ghost replyRequested: bool)
    requires handoff.Valid()
    modifies handoff`received, handoff`indicator, handoff.can`rx, handoff.can`tx,
             handoff.can`events, handoff.can`calls
    ensures handoff.Valid() && !handoff.received
    ensures replyRequested == old(handoff.received)
    ensures !old(handoff.received) ==>
      && handoff.indicator == old(handoff.indicator)
      && handoff.can.rx == old(handoff.can.rx) && handoff.can.tx == old(handoff.can.tx)
      && handoff.can.events == old(handoff.can.events) && handoff.can.calls == old(handoff.can.calls)
    ensures old(handoff.received) ==>
      && handoff.indicator == (old(handoff.can.RxQueue(handoff.channel))[0].data[0] != 0)
      && handoff.can.rx == old(handoff.can.rx)[handoff.channel := old(handoff.can.RxQueue(handoff.channel))[1..]]
      && handoff.can.tx == old(handoff.can.tx)
      && handoff.can.events == old(handoff.can.events) + {handoff.channel}
      && handoff.can.calls == old(handoff.can.calls) + [RxMessageRead(handoff.channel)]
                                                    + [ChannelUpdated(handoff.channel)]
                                                    + [ChannelEventSet(handoff.channel, true)]
  {
    replyRequested := handoff.received;
    handoff.RxMsgProcess();
  }
}
