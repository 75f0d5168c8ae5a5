/** The two controllers of the board joined by one bus: which frames each
    accepts, and what happens to a frame from arrival to the mainline. */
module CanLink {
  import opened CanConstants
  import opened CanIdent
  import opened PlibCan
  import opened CanDriver
  import opened CanReceive

  /** Once CAN1Init has run, the only extended frame any filter accepts
      carries CAN_EID_MSG_1, and filter 0 is the one that accepts it. */
  lemma Can1Filtering(can: CanModule, f: Frame)
    requires can.cfg == Can1Config() && f.ide == 1
    ensures can.MatchingFilter(f, 0) == if FrameId(f) == CAN_EID_MSG_1 then Some(CAN_FILTER0) else None
  {
    MessageIdsWellFormed();
    FullMaskAcceptsExactly(CAN_EID_MSG_1, FrameId(f));
    assert can.FilterMatches(CAN_FILTER0, f) <==> FrameId(f) == CAN_EID_MSG_1;
    var r := can.MatchingFilter(f, 0);
    if r.Some? {
      assert r.value in Can1Config().enabledFilters;
    }
  }

  /** Once CAN2Init has run, filter 1 accepts exactly CAN_EID_MSG_2 and
      filter 2 exactly CAN_EID_MSG_4; nothing else is accepted. */
  lemma Can2Filtering(can: CanModule, f: Frame)
    requires can.cfg == Can2Config() && f.ide == 1
    ensures can.MatchingFilter(f, 0) ==
      if FrameId(f) == CAN_EID_MSG_2 then Some(CAN_FILTER1)
      else if FrameId(f) == CAN_EID_MSG_4 then Some(CAN_FILTER2)
      else None
  {
    MessageIdsWellFormed();
    FullMaskAcceptsExactly(CAN_EID_MSG_2, FrameId(f));
    FullMaskAcceptsExactly(CAN_EID_MSG_4, FrameId(f));
    assert can.FilterMatches(CAN_FILTER1, f) <==> FrameId(f) == CAN_EID_MSG_2;
    assert can.FilterMatches(CAN_FILTER2, f) <==> FrameId(f) == CAN_EID_MSG_4;
    assert !can.FilterMatches(0, f);
    var r := can.MatchingFilter(f, 0);
    if r.Some? {
      assert r.value in Can2Config().enabledFilters;
    }
  }

  /** A TX channel never holds received frames, so its receive event is
      never pending. */
  lemma TxChannelNeverSignals(can: CanModule, ch: nat)
    requires can.Valid() && can.IsTx(ch)
    ensures can.RxQueue(ch) == [] && can.PendingFrom(0) != ChannelEvent(ch)
  {
    assert ch !in can.rx;
  }

  /** The pending event code when exactly one channel's event is enabled. */
  lemma OnlyEnabledChannelPending(can: CanModule, ch: nat)
    requires can.events == {ch} && ch < CHANNEL_COUNT
    ensures can.PendingFrom(0) == if can.RxQueue(ch) != [] then ChannelEvent(ch) else NoEvent
  {
    var code := can.PendingFrom(0);
    if can.RxQueue(ch) != [] {
      assert can.Pending(ch);
    }
  }

  /** An accepted frame reaches the RX channel its filter is linked to. */
  lemma Can1Destination(can: CanModule, f: Frame)
    requires can.Valid() && can.mode == Normal && can.cfg == Can1Config()
    requires f.ide == 1 && FrameId(f) == CAN_EID_MSG_1 && |can.RxQueue(CAN_CHANNEL2)| < CAN2_FIFO_BUFFERS
    ensures can.Destination(f) == Some(CAN_CHANNEL2)
  {
    Can1Filtering(can, f);
  }

  lemma Can2Destination(can: CanModule, f: Frame)
    requires can.Valid() && can.mode == Normal && can.cfg == Can2Config()
    requires f.ide == 1 && FrameId(f) == CAN_EID_MSG_4 && |can.RxQueue(CAN_CHANNEL1)| < CAN2_FIFO_BUFFERS
    ensures can.Destination(f) == Some(CAN_CHANNEL1)
  {
    Can2Filtering(can, f);
  }

  /** A frame arrives on a controller whose only enabled event belongs to
      the empty channel ev the frame is routed to; the interrupt rises and
      the handler runs. The flag goes up exactly when the handler watches
      ev. */
  method ArriveAndHandle(handoff: RxHandoff, frame: Frame, ev: nat)
    requires handoff.Valid() && !handoff.received
    requires ev < CHANNEL_COUNT && handoff.can.events == {ev} && handoff.can.RxQueue(ev) == []
    requires handoff.can.cfg.rxModuleEvent && handoff.can.cfg.interruptEnabled
    requires handoff.can.Destination(frame) == Some(ev)
    modifies handoff`received, handoff.can`rx, handoff.can`events, handoff.can`calls, handoff.can`intFlag
    ensures handoff.Valid() && handoff.can.RxQueue(ev) == [RxEntry(handoff.can.RxModeOf(ev), frame)]
    ensures handoff.received == (handoff.channel == ev)
    ensures handoff.can.events == if handoff.channel == ev then {} else {ev}
    ensures handoff.can.intFlag == (handoff.channel != ev)
  {
    var can := handoff.can;
    can.ReceiveFromBus(frame);
    OnlyEnabledChannelPending(can, ev);
    can.RaiseInterrupt();
    handoff.InterruptHandler();
    if handoff.channel != ev {
      OnlyEnabledChannelPending(can, ev);
    }
  }

  /** CAN1 as written: a CAN_EID_MSG_1 data frame is stored in channel 2,
      whose event is the one CAN1Init enabled, but the interrupt handler
      waits for channel 1, a TX channel. The flag is never raised, the
      mainline never reads the frame, and since channel 2's event stays
      enabled and pending the handler's clear leaves the interrupt flag
      raised, so the interrupt is taken again. */
  method Can1ReceiveAsWritten(payload: Payload) returns (signalled: bool, retriggers: bool, queued: nat)
    ensures !signalled && retriggers && queued == 1
  {
    var can1 := new CanModule();
    CAN1Init(can1);
    var handoff := new RxHandoff(can1, CAN_CHANNEL1);
    var frame := DataFrame(CAN_EID_MSG_1, payload);
    DataFrameCarriesId(CAN_EID_MSG_1, payload);
    Can1Destination(can1, frame);
    ArriveAndHandle(handoff, frame, CAN_CHANNEL2);
    signalled := handoff.received;
    retriggers := can1.intFlag;
    handoff.RxMsgProcess();
    queued := |can1.RxQueue(CAN_CHANNEL2)|;
  }

  /** CAN1 with the handler and the mainline on channel 2, the channel
      its filter and event use: the frame is signalled, read, drives the
      LEDs from its first byte and is released, and nothing is left
      pending. */
  method Can1ReceiveOnChannel2(payload: Payload) returns (signalled: bool, indicator: bool, retriggers: bool, queued: nat)
    ensures signalled && indicator == (payload[0] != 0) && !retriggers && queued == 0
  {
    var can1 := new CanModule();
    CAN1Init(can1);
    var handoff := new RxHandoff(can1, CAN_CHANNEL2);
    var frame := DataFrame(CAN_EID_MSG_1, payload);
    DataFrameCarriesId(CAN_EID_MSG_1, payload);
    Can1Destination(can1, frame);
    ArriveAndHandle(handoff, frame, CAN_CHANNEL2);
    signalled := handoff.received;
    handoff.RxMsgProcess();
    indicator := handoff.indicator;
    OnlyEnabledChannelPending(can1, CAN_CHANNEL2);
    retriggers := can1.PendingFrom(0).ChannelEvent?;
    queued := |can1.RxQueue(CAN_CHANNEL2)|;
  }

  /** CAN2 as written: a CAN_EID_MSG_4 data frame is stored in channel 1,
      signalled, processed, and answered with a call to CAN2TxSendRTRMsg. */
  method Can2Receive(payload: Payload) returns (signalled: bool, indicator: bool, ghost replyRequested: bool, queued: nat)
    ensures signalled && indicator == (payload[0] != 0) && replyRequested && queued == 0
  {
    var can2 := new CanModule();
    CAN2Init(can2);
    var handoff := new RxHandoff(can2, CAN_CHANNEL1);
    var frame := DataFrame(CAN_EID_MSG_4, payload);
    DataFrameCarriesId(CAN_EID_MSG_4, payload);
    Can2Destination(can2, frame);
    ArriveAndHandle(handoff, frame, CAN_CHANNEL1);
    signalled := handoff.received;
    replyRequested := CAN2RxMsgProcess(handoff);
    indicator := handoff.indicator;
    queued := |can2.RxQueue(CAN_CHANNEL1)|;
  }

  /** CAN2TxSendIODataMsg on a freshly initialised CAN2 queues the data
      frame, and the flush puts it on the bus. */
  method Can2SendsIoData(a: bv8, b: bv8, c: bv8, d: bv8, e: bv8, f: bv8, g: bv8, h: bv8)
    returns (onBus: seq<Frame>)
    ensures onBus == [DataFrame(CAN_EID_MSG_1, [a, b, c, d, e, f, g, h])]
  {
    var can2 := new CanModule();
    CAN2Init(can2);
    CAN2TxSendIODataMsg(can2, a, b, c, d, e, f, g, h);
    can2.TransmitNext(CAN_CHANNEL0);
    onBus := can2.sent;
  }

  /** That frame, arriving at a freshly initialised CAN1, is accepted by
      filter 0 and stored in channel 2, a data-only channel: what is kept
      is the eight bytes, in order, and no identifier. */
  method Can1ReceivesIoData(a: bv8, b: bv8, c: bv8, d: bv8, e: bv8, f: bv8, g: bv8, h: bv8)
    returns (stored: seq<Frame>)
    ensures stored == [Frame(0, 0, 0, 0, 0, 0, [a, b, c, d, e, f, g, h])]
  {
    var onBus := Can2SendsIoData(a, b, c, d, e, f, g, h);
    var can1 := new CanModule();
    CAN1Init(can1);
    DataFrameCarriesId(CAN_EID_MSG_1, [a, b, c, d, e, f, g, h]);
    Can1Destination(can1, onBus[0]);
    can1.ReceiveFromBus(onBus[0]);
    stored := can1.RxQueue(CAN_CHANNEL2);
  }

  /** CAN1TxSendRTRMsg's remote request is accepted by CAN2's filter 1,
      which leads to TX channel 0: nothing is stored for the mainline (the
      answer is the controller's own remote-frame reply). */
  method Can2GetsRemoteRequest() returns (filter: Option<nat>, stored: bool)
    ensures filter == Some(CAN_FILTER1) && !stored
  {
    var frame := RemoteRequestFrame(CAN_EID_MSG_2);
    RemoteRequestFrameCarriesId(CAN_EID_MSG_2);
    MessageIdsWellFormed();
    var can2 := new CanModule();
    CAN2Init(can2);
    Can2Filtering(can2, frame);
    filter := can2.MatchingFilter(frame, 0);
    stored := can2.Destination(frame).Some?;
  }
}
