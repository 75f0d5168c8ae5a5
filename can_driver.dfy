/** The CAN link driver (CANFunctions_first_attempt.c): initialisation of
    both controllers and the remote-request and data transmit functions. */
module CanDriver {
  import opened CanConstants
  import opened CanIdent
  import opened PlibCan

  const CAN_CHANNEL0: nat := 0
  const CAN_CHANNEL1: nat := 1
  const CAN_CHANNEL2: nat := 2
  const CAN_FILTER0: nat := 0
  const CAN_FILTER1: nat := 1
  const CAN_FILTER2: nat := 2
  const CAN_FILTER_MASK0: nat := 0
  const CAN_FILTER_MASK1: nat := 1
  const CAN_FILTER_MASK2: nat := 2
  const INT_PRIORITY_LEVEL_4: nat := 4
  const INT_SUB_PRIORITY_LEVEL_0: nat := 0

  /** Propagation, phase 1 and phase 2 segments of 3 TQ, SJW of 2 TQ,
      three samples per bit. */
  const BitTiming := BitConfig(3, 3, 3, true, true, 2)

  // ---------------------------------------------------------------------
  // Initialisation
  // ---------------------------------------------------------------------

  /** Switch on, request Configuration mode and see it reached; then the
      configuration; then request Normal mode and see it reached. */
  function InitCalls(body: seq<Call>): (calls: seq<Call>)
  {
    [ModuleEnabled(true), ModeRequested(Configuration), ModeObserved(Configuration)]
    + body +
    [ModeRequested(Normal), ModeObserved(Normal)]
  }

  /** Bit timing at 250 kbit/s and the FIFO memory. */
  function TimingCalls(memory: nat): (calls: seq<Call>)
  {
    [SpeedSet(Speed(BitTiming, SYSTEM_CLOCK, CAN_BUS_SPEED)), MemoryAssigned(memory)]
  }

  /** One acceptance filter: identifier, mask of all 29 bits, link, enable. */
  function FilterCalls(filter: nat, id: bv32, mask: nat, ch: nat): (calls: seq<Call>)
  {
    [ FilterConfigured(filter, id, Eid),
      MaskConfigured(mask, EID_FILTER_MASK, Eid, IdeType),
      FilterLinked(filter, mask, ch),
      FilterEnabled(filter, true) ]
  }

  /** Receive event of one channel up to the CPU at priority 4.0. */
  function InterruptCalls(ch: nat): (calls: seq<Call>)
  {
    [ ChannelEventSet(ch, true),
      ModuleEventSet(true),
      VectorPrioritySet(INT_PRIORITY_LEVEL_4),
      VectorSubPrioritySet(INT_SUB_PRIORITY_LEVEL_0),
      InterruptEnabled(true) ]
  }

  function Can1ChannelCalls(): (calls: seq<Call>)
  {
    [ TxChannelConfigured(CAN_CHANNEL0, CAN1_FIFO_BUFFERS, false, LowMedium),
      TxChannelConfigured(CAN_CHANNEL1, CAN1_FIFO_BUFFERS, false, LowMedium),
      RxChannelConfigured(CAN_CHANNEL2, CAN2_FIFO_BUFFERS, DataOnly) ]
  }

  function Can2ChannelCalls(): (calls: seq<Call>)
  {
    [ TxChannelConfigured(CAN_CHANNEL0, CAN2_FIFO_BUFFERS, true, LowMedium),
      RxChannelConfigured(CAN_CHANNEL1, CAN2_FIFO_BUFFERS, FullReceive) ]
  }

  function Can1ConfigCalls(): (calls: seq<Call>)
  {
    TimingCalls(CAN1_MSG_MEMORY) + Can1ChannelCalls()
    + FilterCalls(CAN_FILTER0, CAN_EID_MSG_1, CAN_FILTER_MASK0, CAN_CHANNEL2)
    + InterruptCalls(CAN_CHANNEL2)
  }

  function Can2ConfigCalls(): (calls: seq<Call>)
  {
    TimingCalls(CAN2_MSG_MEMORY) + Can2ChannelCalls()
    + FilterCalls(CAN_FILTER1, CAN_EID_MSG_2, CAN_FILTER_MASK1, CAN_CHANNEL0)
    + FilterCalls(CAN_FILTER2, CAN_EID_MSG_4, CAN_FILTER_MASK2, CAN_CHANNEL1)
    + InterruptCalls(CAN_CHANNEL1)
  }

  /** CAN1: channels 0 and 1 transmit, channel 2 receives what filter 0
      (identifier 0x8004001, all 29 bits compared) accepts. */
  function Can1Config(): Config
  {
    Config(Some(Speed(BitTiming, SYSTEM_CLOCK, CAN_BUS_SPEED)), CAN1_MSG_MEMORY,
           map[CAN_CHANNEL0 := TxChannel(CAN1_FIFO_BUFFERS, false, LowMedium),
               CAN_CHANNEL1 := TxChannel(CAN1_FIFO_BUFFERS, false, LowMedium),
               CAN_CHANNEL2 := RxChannel(CAN2_FIFO_BUFFERS, DataOnly)],
           map[CAN_FILTER0 := FilterCfg(CAN_EID_MSG_1, Eid)],
           map[CAN_FILTER_MASK0 := MaskCfg(EID_FILTER_MASK, Eid, IdeType)],
           map[CAN_FILTER0 := FilterLink(CAN_FILTER_MASK0, CAN_CHANNEL2)],
           {CAN_FILTER0}, true, INT_PRIORITY_LEVEL_4, INT_SUB_PRIORITY_LEVEL_0, true)
  }

  /** CAN2: channel 0 transmits and may answer remote requests, channel 1
      receives; filter 1 (0x8004002) leads to channel 0, filter 2
      (0x8004004) to channel 1. */
  function Can2Config(): Config
  {
    Config(Some(Speed(BitTiming, SYSTEM_CLOCK, CAN_BUS_SPEED)), CAN2_MSG_MEMORY,
           map[CAN_CHANNEL0 := TxChannel(CAN2_FIFO_BUFFERS, true, LowMedium),
               CAN_CHANNEL1 := RxChannel(CAN2_FIFO_BUFFERS, FullReceive)],
           map[CAN_FILTER1 := FilterCfg(CAN_EID_MSG_2, Eid), CAN_FILTER2 := FilterCfg(CAN_EID_MSG_4, Eid)],
           map[CAN_FILTER_MASK1 := MaskCfg(EID_FILTER_MASK, Eid, IdeType),
               CAN_FILTER_MASK2 := MaskCfg(EID_FILTER_MASK, Eid, IdeType)],
           map[CAN_FILTER1 := FilterLink(CAN_FILTER_MASK1, CAN_CHANNEL0),
               CAN_FILTER2 := FilterLink(CAN_FILTER_MASK2, CAN_CHANNEL1)],
           {CAN_FILTER1, CAN_FILTER2}, true, INT_PRIORITY_LEVEL_4, INT_SUB_PRIORITY_LEVEL_0, true)
  }

  /** Bit timing and message memory (configuration steps 2 and 3). */
  method SetTiming(can: CanModule, memory: nat)
    requires can.Valid() && can.mode == Configuration
    modifies can`cfg, can`calls
    ensures can.Valid()
    ensures can.cfg == old(can.cfg).(speed := Some(Speed(BitTiming, SYSTEM_CLOCK, CAN_BUS_SPEED)), memory := memory)
    ensures can.calls == old(can.calls) + TimingCalls(memory)
  {
    can.SetSpeed(BitTiming, SYSTEM_CLOCK, CAN_BUS_SPEED);
    can.AssignMemoryBuffer(memory);
  }

  /** CAN1's FIFOs: channels 0 and 1 transmit, channel 2 receives. */
  method Can1Channels(can: CanModule)
    requires can.Valid() && can.mode == Configuration
    modifies can`cfg, can`rx, can`tx, can`calls
    ensures can.Valid()
    ensures can.cfg == old(can.cfg).(channels := old(can.cfg.channels)
              [CAN_CHANNEL0 := TxChannel(CAN1_FIFO_BUFFERS, false, LowMedium)]
              [CAN_CHANNEL1 := TxChannel(CAN1_FIFO_BUFFERS, false, LowMedium)]
              [CAN_CHANNEL2 := RxChannel(CAN2_FIFO_BUFFERS, DataOnly)])
    ensures can.rx == old(can.rx) - {CAN_CHANNEL0} - {CAN_CHANNEL1} - {CAN_CHANNEL2}
    ensures can.tx == old(can.tx) - {CAN_CHANNEL0} - {CAN_CHANNEL1} - {CAN_CHANNEL2}
    ensures can.calls == old(can.calls) + Can1ChannelCalls()
  {
    can.ConfigureChannelForTx(CAN_CHANNEL0, CAN1_FIFO_BUFFERS, false, LowMedium);
    can.ConfigureChannelForTx(CAN_CHANNEL1, CAN1_FIFO_BUFFERS, false, LowMedium);
    can.ConfigureChannelForRx(CAN_CHANNEL2, CAN2_FIFO_BUFFERS, DataOnly);
  }

  /** CAN2's FIFOs: channel 0 transmits and may answer remote requests,
      channel 1 receives. */
  method Can2Channels(can: CanModule)
    requires can.Valid() && can.mode == Configuration
    modifies can`cfg, can`rx, can`tx, can`calls
    ensures can.Valid()
    ensures can.cfg == old(can.cfg).(channels := old(can.cfg.channels)
              [CAN_CHANNEL0 := TxChannel(CAN2_FIFO_BUFFERS, true, LowMedium)]
              [CAN_CHANNEL1 := RxChannel(CAN2_FIFO_BUFFERS, FullReceive)])
    ensures can.rx == old(can.rx) - {CAN_CHANNEL0} - {CAN_CHANNEL1}
    ensures can.tx == old(can.tx) - {CAN_CHANNEL0} - {CAN_CHANNEL1}
    ensures can.calls == old(can.calls) + Can2ChannelCalls()
  {
    can.ConfigureChannelForTx(CAN_CHANNEL0, CAN2_FIFO_BUFFERS, true, LowMedium);
    can.ConfigureChannelForRx(CAN_CHANNEL1, CAN2_FIFO_BUFFERS, FullReceive);
  }

  /** One filter accepting exactly the extended identifier id into channel ch. */
  method SetFilter(can: CanModule, filter: nat, id: bv32, mask: nat, ch: nat)
    requires can.Valid() && can.mode == Configuration
    requires filter < FILTER_COUNT && mask < MASK_COUNT && ch < CHANNEL_COUNT && id <= EID_FILTER_MASK
    modifies can`cfg, can`calls
    ensures can.Valid()
    ensures can.cfg == old(can.cfg).(filters := old(can.cfg.filters)[filter := FilterCfg(id, Eid)],
                                     masks := old(can.cfg.masks)[mask := MaskCfg(EID_FILTER_MASK, Eid, IdeType)],
                                     links := old(can.cfg.links)[filter := FilterLink(mask, ch)],
                                     enabledFilters := old(can.cfg.enabledFilters) + {filter})
    ensures can.calls == old(can.calls) + FilterCalls(filter, id, mask, ch)
  {
    can.ConfigureFilter(filter, id, Eid);
    can.ConfigureFilterMask(mask, EID_FILTER_MASK, Eid, IdeType);
    can.LinkFilterToChannel(filter, mask, ch);
    can.EnableFilter(filter, true);
  }

  /** Receive event of channel ch, module event, vector priority, vector enable. */
  method EnableRxInterrupt(can: CanModule, ch: nat)
    requires can.Valid() && ch < CHANNEL_COUNT
    modifies can`cfg, can`events, can`calls
    ensures can.Valid()
    ensures can.events == old(can.events) + {ch}
    ensures can.cfg == old(can.cfg).(rxModuleEvent := true, vectorPriority := INT_PRIORITY_LEVEL_4,
                                     vectorSubPriority := INT_SUB_PRIORITY_LEVEL_0, interruptEnabled := true)
    ensures can.calls == old(can.calls) + InterruptCalls(ch)
  {
    can.EnableChannelEvent(ch, true);
    can.EnableModuleEvent(true);
    can.SetVectorPriority(INT_PRIORITY_LEVEL_4);
    can.SetVectorSubPriority(INT_SUB_PRIORITY_LEVEL_0);
    can.EnableInterrupt(true);
  }

  /** Request an operating mode and poll until the controller reports it;
      the poll exits at its first test. */
  method EnterMode(can: CanModule, m: OpMode)
    requires can.Valid() && can.on
    modifies can`mode, can`calls
    ensures can.Valid() && can.mode == m
    ensures can.calls == old(can.calls) + [ModeRequested(m)] + [ModeObserved(m)]
  {
    can.SetOperatingMode(m);
    var observed := can.GetOperatingMode();
    assert observed == m;
  }

  /** The configuration part of CAN1Init, run in Configuration mode. */
  method Can1Configure(can: CanModule)
    requires can.Valid() && can.mode == Configuration && can.cfg == ResetConfig
    requires can.rx == map[] && can.tx == map[] && can.events == {}
    modifies can`cfg, can`rx, can`tx, can`events, can`calls
    ensures can.Valid() && can.cfg == Can1Config() && can.events == {CAN_CHANNEL2}
    ensures can.rx == map[] && can.tx == map[]
    ensures can.calls == old(can.calls) + Can1ConfigCalls()
  {
    SetTiming(can, CAN1_MSG_MEMORY);
    Can1Channels(can);
    SetFilter(can, CAN_FILTER0, CAN_EID_MSG_1, CAN_FILTER_MASK0, CAN_CHANNEL2);
    EnableRxInterrupt(can, CAN_CHANNEL2);
  }

  /** CAN1Init, from a controller fresh out of reset. */
  method CAN1Init(can: CanModule)
    requires can.Valid() && can.Reset()
    modifies can
    ensures can.Valid()
    ensures can.on && can.mode == Normal && can.cfg == Can1Config() && can.events == {CAN_CHANNEL2}
    ensures can.rx == map[] && can.tx == map[] && can.flushRequested == {} && can.sent == [] && !can.intFlag
    ensures can.calls == old(can.calls) + InitCalls(Can1ConfigCalls())
  {
    can.EnableModule(true);
    EnterMode(can, Configuration);
    Can1Configure(can);
    EnterMode(can, Normal);
  }

  /** The configuration part of CAN2Init, run in Configuration mode. */
  method Can2Configure(can: CanModule)
    requires can.Valid() && can.mode == Configuration && can.cfg == ResetConfig
    requires can.rx == map[] && can.tx == map[] && can.events == {}
    modifies can`cfg, can`rx, can`tx, can`events, can`calls
    ensures can.Valid() && can.cfg == Can2Config() && can.events == {CAN_CHANNEL1}
    ensures can.rx == map[] && can.tx == map[]
    ensures can.calls == old(can.calls) + Can2ConfigCalls()
  {
    SetTiming(can, CAN2_MSG_MEMORY);
    Can2Channels(can);
    SetFilter(can, CAN_FILTER1, CAN_EID_MSG_2, CAN_FILTER_MASK1, CAN_CHANNEL0);
    SetFilter(can, CAN_FILTER2, CAN_EID_MSG_4, CAN_FILTER_MASK2, CAN_CHANNEL1);
    EnableRxInterrupt(can, CAN_CHANNEL1);
  }

  /** CAN2Init, from a controller fresh out of reset. */
  method CAN2Init(can: CanModule)
    requires can.Valid() && can.Reset()
    modifies can
    ensures can.Valid()
    ensures can.on && can.mode == Normal && can.cfg == Can2Config() && can.events == {CAN_CHANNEL1}
    ensures can.rx == map[] && can.tx == map[] && can.flushRequested == {} && can.sent == [] && !can.intFlag
    ensures can.calls == old(can.calls) + InitCalls(Can2ConfigCalls())
  {
    can.EnableModule(true);
    EnterMode(can, Configuration);
    Can2Configure(can);
    EnterMode(can, Normal);
  }

  // ---------------------------------------------------------------------
  // Properties of the initialisation
  // ---------------------------------------------------------------------

  /** Calls that change the controller's configuration or its events. */
  predicate IsConfigCall(c: Call)
  {
    || c.SpeedSet? || c.MemoryAssigned? || c.TxChannelConfigured? || c.RxChannelConfigured?
    || c.FilterConfigured? || c.MaskConfigured? || c.FilterLinked? || c.FilterEnabled?
    || c.ChannelEventSet? || c.ModuleEventSet?
    || c.VectorPrioritySet? || c.VectorSubPrioritySet? || c.InterruptEnabled?
  }

  /** Every configuration call of an initialisation comes after Configuration
      mode has been observed, and the initialisation ends by observing Normal
      mode, with no configuration call after Normal mode was requested. */
  lemma InitConfiguresInConfigurationMode(body: seq<Call>)
    ensures var calls := InitCalls(body);
      && calls[2] == ModeObserved(Configuration)
      && calls[|calls| - 2] == ModeRequested(Normal)
      && calls[|calls| - 1] == ModeObserved(Normal)
      && forall k :: 0 <= k < |calls| && IsConfigCall(calls[k]) ==> 2 < k < |calls| - 2
  {
  }


  /** Call k is preceded by a call configuring filter f, one linking f to
      a mask and a channel, and one configuring that mask. */
  ghost predicate SetUpBefore(calls: seq<Call>, k: int, f: nat)
    requires 0 <= k <= |calls|
  {
    exists i, j, l :: (0 <= i < k && 0 <= j < k && 0 <= l < k
      && calls[i].FilterConfigured? && calls[i].filter == f
      && calls[l].FilterLinked? && calls[l].filter == f
      && calls[j].MaskConfigured? && calls[j].mask == calls[l].mask)
  }

  /** Every call that enables a filter comes after that filter was set up. */
  ghost predicate EnabledFiltersSetUp(calls: seq<Call>)
  {
    forall k :: 0 <= k < |calls| && calls[k].FilterEnabled? && calls[k].enable ==>
      SetUpBefore(calls, k, calls[k].filter)
  }

  lemma FilterCallsSetUp(filter: nat, id: bv32, mask: nat, ch: nat)
    ensures EnabledFiltersSetUp(FilterCalls(filter, id, mask, ch))
  {
    var calls := FilterCalls(filter, id, mask, ch);
    assert SetUpBefore(calls, 3, filter) by {
      assert calls[0].FilterConfigured? && calls[1].MaskConfigured? && calls[2].FilterLinked?;
    }
  }

  lemma NoEnableSetUp(calls: seq<Call>)
    requires forall c :: c in calls ==> !c.FilterEnabled?
    ensures EnabledFiltersSetUp(calls)
  {
  }

  /** A set-up found in a prefix is still there once more calls follow. */
  lemma SetUpBeforeExtend(a: seq<Call>, b: seq<Call>, k: int, f: nat)
    requires 0 <= k <= |a| && SetUpBefore(a, k, f)
    ensures SetUpBefore(a + b, k, f)
  {
    var i, j, l :| 0 <= i < k && 0 <= j < k && 0 <= l < k
      && a[i].FilterConfigured? && a[i].filter == f
      && a[l].FilterLinked? && a[l].filter == f
      && a[j].MaskConfigured? && a[j].mask == a[l].mask;
    var calls := a + b;
    assert calls[i] == a[i] && calls[j] == a[j] && calls[l] == a[l];
  }

  /** A set-up found in a suffix moves with it, by the prefix's length. */
  lemma SetUpBeforeShift(a: seq<Call>, b: seq<Call>, m: int, f: nat)
    requires 0 <= m <= |b| && SetUpBefore(b, m, f)
    ensures SetUpBefore(a + b, m + |a|, f)
  {
    var i, j, l :| 0 <= i < m && 0 <= j < m && 0 <= l < m
      && b[i].FilterConfigured? && b[i].filter == f
      && b[l].FilterLinked? && b[l].filter == f
      && b[j].MaskConfigured? && b[j].mask == b[l].mask;
    var calls := a + b;
    assert calls[i + |a|] == b[i] && calls[j + |a|] == b[j] && calls[l + |a|] == b[l];
  }

  /** The set-up order survives concatenation. */
  lemma ConcatSetUp(a: seq<Call>, b: seq<Call>)
    requires EnabledFiltersSetUp(a) && EnabledFiltersSetUp(b)
    ensures EnabledFiltersSetUp(a + b)
  {
    var calls := a + b;
    forall k | 0 <= k < |calls| && calls[k].FilterEnabled? && calls[k].enable
      ensures SetUpBefore(calls, k, calls[k].filter)
    {
      if k < |a| {
        assert a[k] == calls[k];
        SetUpBeforeExtend(a, b, k, a[k].filter);
      } else {
        assert b[k - |a|] == calls[k];
        SetUpBeforeShift(a, b, k - |a|, b[k - |a|].filter);
      }
    }
  }

  /** Both initialisations set every filter up before enabling it. */
  lemma InitFiltersSetUpBeforeEnabled()
    ensures EnabledFiltersSetUp(InitCalls(Can1ConfigCalls()))
    ensures EnabledFiltersSetUp(InitCalls(Can2ConfigCalls()))
  {
    var head := [ModuleEnabled(true), ModeRequested(Configuration), ModeObserved(Configuration)];
    var tail := [ModeRequested(Normal), ModeObserved(Normal)];
    NoEnableSetUp(head);
    NoEnableSetUp(tail);
    NoEnableSetUp(TimingCalls(CAN1_MSG_MEMORY));
    NoEnableSetUp(TimingCalls(CAN2_MSG_MEMORY));
    NoEnableSetUp(Can1ChannelCalls());
    NoEnableSetUp(Can2ChannelCalls());
    NoEnableSetUp(InterruptCalls(CAN_CHANNEL2));
    NoEnableSetUp(InterruptCalls(CAN_CHANNEL1));
    FilterCallsSetUp(CAN_FILTER0, CAN_EID_MSG_1, CAN_FILTER_MASK0, CAN_CHANNEL2);
    FilterCallsSetUp(CAN_FILTER1, CAN_EID_MSG_2, CAN_FILTER_MASK1, CAN_CHANNEL0);
    FilterCallsSetUp(CAN_FILTER2, CAN_EID_MSG_4, CAN_FILTER_MASK2, CAN_CHANNEL1);
    var f0 := FilterCalls(CAN_FILTER0, CAN_EID_MSG_1, CAN_FILTER_MASK0, CAN_CHANNEL2);
    var f1 := FilterCalls(CAN_FILTER1, CAN_EID_MSG_2, CAN_FILTER_MASK1, CAN_CHANNEL0);
    var f2 := FilterCalls(CAN_FILTER2, CAN_EID_MSG_4, CAN_FILTER_MASK2, CAN_CHANNEL1);
    ConcatSetUp(TimingCalls(CAN1_MSG_MEMORY), Can1ChannelCalls());
    ConcatSetUp(TimingCalls(CAN1_MSG_MEMORY) + Can1ChannelCalls(), f0);
    ConcatSetUp(TimingCalls(CAN1_MSG_MEMORY) + Can1ChannelCalls() + f0, InterruptCalls(CAN_CHANNEL2));
    ConcatSetUp(head, Can1ConfigCalls());
    ConcatSetUp(head + Can1ConfigCalls(), tail);
    ConcatSetUp(TimingCalls(CAN2_MSG_MEMORY), Can2ChannelCalls());
    ConcatSetUp(TimingCalls(CAN2_MSG_MEMORY) + Can2ChannelCalls(), f1);
    ConcatSetUp(TimingCalls(CAN2_MSG_MEMORY) + Can2ChannelCalls() + f1, f2);
    ConcatSetUp(TimingCalls(CAN2_MSG_MEMORY) + Can2ChannelCalls() + f1 + f2, InterruptCalls(CAN_CHANNEL1));
    ConcatSetUp(head, Can2ConfigCalls());
    ConcatSetUp(head + Can2ConfigCalls(), tail);
  }

  /** CAN1 has CAN1_CHANNELS channels and CAN2 CAN2_CHANNELS, each with
      eight message buffers; every enabled filter is configured and linked
      to a configured channel through a configured mask. */
  lemma ChannelLayout()
    ensures |Can1Config().channels.Keys| == CAN1_CHANNELS
    ensures |Can2Config().channels.Keys| == CAN2_CHANNELS
    ensures forall ch :: ch in Can1Config().channels ==> Can1Config().channels[ch].buffers == 8
    ensures forall ch :: ch in Can2Config().channels ==> Can2Config().channels[ch].buffers == 8
    ensures FiltersComplete(Can1Config()) && FiltersComplete(Can2Config())
  {
    assert Can1Config().channels.Keys == {CAN_CHANNEL0, CAN_CHANNEL1, CAN_CHANNEL2};
    assert Can2Config().channels.Keys == {CAN_CHANNEL0, CAN_CHANNEL1};
  }

  ghost predicate FiltersComplete(c: Config)
  {
    forall f :: f in c.enabledFilters ==>
      f in c.filters && f in c.links && c.links[f].mask in c.masks && c.links[f].channel in c.channels
  }

  // ---------------------------------------------------------------------
  // Transmission
  // ---------------------------------------------------------------------

  const ZeroPayload: Payload := [0, 0, 0, 0, 0, 0, 0, 0]

  /** A remote-transmission request for an extended identifier: no data. */
  function RemoteRequestFrame(id: bv32): (f: Frame)
  {
    Frame(SidOf(id), EidOf(id), 1, 1, 1, 0, ZeroPayload)
  }

  /** An eight-byte extended data frame. */
  function DataFrame(id: bv32, data: Payload): (f: Frame)
  {
    Frame(SidOf(id), EidOf(id), 1, 0, 0, 8, data)
  }

  /** A remote request carries its identifier onto the bus, asks for data
      (RTR and SRR set, DLC 0) and leaves every data byte zero. */
  lemma RemoteRequestFrameCarriesId(id: bv32)
    requires id < EXTENDED_ID_LIMIT
    ensures FrameId(RemoteRequestFrame(id)) == id
    ensures RemoteRequestFrame(id).rtr == 1 && RemoteRequestFrame(id).srr == 1 && RemoteRequestFrame(id).dlc == 0
    ensures forall i :: 0 <= i < 8 ==> RemoteRequestFrame(id).data[i] == 0
  {
    SplitJoin(id);
  }

  /** A data frame carries its identifier and the eight bytes in order. */
  lemma DataFrameCarriesId(id: bv32, data: Payload)
    requires id < EXTENDED_ID_LIMIT
    ensures FrameId(DataFrame(id, data)) == id
    ensures DataFrame(id, data).rtr == 0 && DataFrame(id, data).dlc == 8
    ensures forall i :: 0 <= i < 8 ==> DataFrame(id, data).data[i] == data[i]
  {
    SplitJoin(id);
  }

  /** Clears the four message words of the buffer, as the driver does
      before filling one in. */
  method ClearMessage(message: MessageBuffer)
    requires message.data.Length == 8
    modifies message, message.data
    ensures message.Contents() == Frame(0, 0, 0, 0, 0, 0, ZeroPayload)
  {
    message.sid, message.eid, message.ide, message.rtr, message.srr, message.dlc := 0, 0, 0, 0, 0, 0;
    message.data[0], message.data[1], message.data[2], message.data[3] := 0, 0, 0, 0;
    message.data[4], message.data[5], message.data[6], message.data[7] := 0, 0, 0, 0;
  }

  /** Fills a cleared buffer as a remote request for id; the EID field
      is taken from the identifier's low 16 bits, as the driver computes it. */
  method WriteRemoteRequest(message: MessageBuffer, id: bv32)
    requires message.data.Length == 8
    modifies message, message.data
    ensures message.Contents() == Frame(SidOf(id), EidField(id), 1, 1, 1, 0, ZeroPayload)
  {
    ClearMessage(message);
    message.sid := SidOf(id);
    message.eid := EidField(id);
    message.ide := 1;
    message.rtr := 1;
    message.srr := 1;
    message.dlc := 0;
  }

  /** Fills a cleared buffer as an eight-byte data frame for id. */
  method WriteDataMessage(message: MessageBuffer, id: bv32, a: bv8, b: bv8, c: bv8, d: bv8, e: bv8, f: bv8, g: bv8, h: bv8)
    requires message.data.Length == 8
    modifies message, message.data
    ensures message.Contents() == Frame(SidOf(id), EidField(id), 1, 0, 0, 8, [a, b, c, d, e, f, g, h])
  {
    ClearMessage(message);
    message.sid := SidOf(id);
    message.eid := EidField(id);
    message.ide := 1;
    message.rtr := 0;
    message.dlc := 8;
    WriteData(message.data, a, b, c, d, e, f, g, h);
  }

  /** The eight data bytes, data[0] to data[7], in argument order. */
  method WriteData(data: array<bv8>, a: bv8, b: bv8, c: bv8, d: bv8, e: bv8, f: bv8, g: bv8, h: bv8)
    requires data.Length == 8
    modifies data
    ensures data[..] == [a, b, c, d, e, f, g, h]
  {
    data[0], data[1], data[2], data[3] := a, b, c, d;
    data[4], data[5], data[6], data[7] := e, f, g, h;
  }

  /** CAN1TxSendRTRMsg: a remote request for CAN_EID_MSG_2 on CAN1's
      channel 0. With no free buffer nothing is written, updated or
      flushed, and no error is reported. */
  method CAN1TxSendRTRMsg(can: CanModule)
    requires can.Valid()
    modifies can`rx, can`tx, can`flushRequested, can`calls, can.slot, can.slot.data
    ensures can.Valid() && can.rx == old(can.rx)
    ensures old(can.TxRoom(CAN_CHANNEL0)) ==>
      && can.tx == old(can.tx)[CAN_CHANNEL0 := old(can.TxQueue(CAN_CHANNEL0)) + [RemoteRequestFrame(CAN_EID_MSG_2)]]
      && can.flushRequested == old(can.flushRequested) + {CAN_CHANNEL0}
      && can.calls == old(can.calls) + [TxBufferRequested(CAN_CHANNEL0)] + [ChannelUpdated(CAN_CHANNEL0)] + [TxFlushed(CAN_CHANNEL0)]
    ensures !old(can.TxRoom(CAN_CHANNEL0)) ==>
      && can.tx == old(can.tx) && can.flushRequested == old(can.flushRequested)
      && can.calls == old(can.calls) + [TxBufferRequested(CAN_CHANNEL0)]
      && unchanged(can.slot, can.slot.data)
  {
    var message := can.GetTxMessageBuffer(CAN_CHANNEL0);
    if message != null {
      WriteRemoteRequest(message, CAN_EID_MSG_2);
      DriverIdsUnaffected();
      assert message.Contents() == RemoteRequestFrame(CAN_EID_MSG_2);
      can.UpdateChannel(CAN_CHANNEL0);
      can.FlushTxChannel(CAN_CHANNEL0);
    }
  }

  /** CAN2TxSendIODataMsg: an eight-byte data frame for CAN_EID_MSG_1 on
      CAN2's channel 0, byte i being the i-th argument. */
  method CAN2TxSendIODataMsg(can: CanModule, a: bv8, b: bv8, c: bv8, d: bv8, e: bv8, f: bv8, g: bv8, h: bv8)
    requires can.Valid()
    modifies can`rx, can`tx, can`flushRequested, can`calls, can.slot, can.slot.data
    ensures can.Valid() && can.rx == old(can.rx)
    ensures old(can.TxRoom(CAN_CHANNEL0)) ==>
      && can.tx == old(can.tx)[CAN_CHANNEL0 := old(can.TxQueue(CAN_CHANNEL0)) + [DataFrame(CAN_EID_MSG_1, [a, b, c, d, e, f, g, h])]]
      && can.flushRequested == old(can.flushRequested) + {CAN_CHANNEL0}
      && can.calls == old(can.calls) + [TxBufferRequested(CAN_CHANNEL0)] + [ChannelUpdated(CAN_CHANNEL0)] + [TxFlushed(CAN_CHANNEL0)]
    ensures !old(can.TxRoom(CAN_CHANNEL0)) ==>
      && can.tx == old(can.tx) && can.flushRequested == old(can.flushRequested)
      && can.calls == old(can.calls) + [TxBufferRequested(CAN_CHANNEL0)]
      && unchanged(can.slot, can.slot.data)
  {
    var message := can.GetTxMessageBuffer(CAN_CHANNEL0);
    if message != null {
      WriteDataMessage(message, CAN_EID_MSG_1, a, b, c, d, e, f, g, h);
      DriverIdsUnaffected();
      assert message.Contents() == DataFrame(CAN_EID_MSG_1, [a, b, c, d, e, f, g, h]);
      can.UpdateChannel(CAN_CHANNEL0);
      can.FlushTxChannel(CAN_CHANNEL0);
    }
  }
}
