/** The part of the PIC32 peripheral library's CAN interface that the driver
    uses, modelled as a controller object. The library itself is not part of
    this model: each call is given the effect its documentation in the
    driver describes, and every call the driver makes is appended to a
    ghost call trace so that orderings can be stated. Two hardware steps
    that no driver code performs -- taking a frame off the bus and putting
    the head of a flushed TX FIFO on the bus -- are methods as well, so
    that they can be interleaved with driver calls. */
module PlibCan {
  import opened CanConstants
  import opened CanIdent

  datatype Option<T> = None | Some(value: T)

  datatype OpMode = Normal | Disable | Loopback | ListenOnly | Configuration | ListenAllMessages
  datatype Priority = Lowest | LowMedium | HighMedium | Highest
  datatype RxMode = DataOnly | FullReceive
  datatype IdType = Sid | Eid
  datatype MaskType = IdeType | AnyType

  datatype ChannelCfg =
    | TxChannel(buffers: nat, rtrEnabled: bool, priority: Priority)
    | RxChannel(buffers: nat, rxMode: RxMode)

  /** Bit timing in time quanta, as in CAN_BIT_CONFIG. */
  datatype BitConfig = BitConfig(phaseSeg2Tq: nat, phaseSeg1Tq: nat, propagationSegTq: nat,
                                 phaseSeg2TimeSelect: bool, sample3Time: bool, syncJumpWidth: nat)
  datatype Speed = Speed(bits: BitConfig, sysClock: nat, busSpeed: nat)
  datatype FilterCfg = FilterCfg(id: bv32, idType: IdType)
  datatype MaskCfg = MaskCfg(mask: bv32, idType: IdType, maskType: MaskType)
  datatype FilterLink = FilterLink(mask: nat, channel: nat)

  /** The eight data bytes of a message buffer; bytes past DLC are kept. */
  type Payload = s: seq<bv8> | |s| == 8 witness [0, 0, 0, 0, 0, 0, 0, 0]

  /** The fields of a message buffer: SID, EID, IDE, RTR, SRR, DLC, data. */
  datatype Frame = Frame(sid: bv32, eid: bv32, ide: bv32, rtr: bv32, srr: bv32, dlc: bv32, data: Payload)

  /** The identifier a frame carries on the bus. */
  function FrameId(f: Frame): (id: bv32)
  {
    if f.ide == 1 then Join(f.sid, f.eid) else f.sid & SID_MASK
  }

  /** Everything configured while the module is in Configuration mode,
      plus the module RX event and the interrupt controller settings. */
  datatype Config = Config(
    speed: Option<Speed>,
    memory: nat,
    channels: map<nat, ChannelCfg>,
    filters: map<nat, FilterCfg>,
    masks: map<nat, MaskCfg>,
    links: map<nat, FilterLink>,
    enabledFilters: set<nat>,
    rxModuleEvent: bool,
    vectorPriority: nat,
    vectorSubPriority: nat,
    interruptEnabled: bool)

  const ResetConfig := Config(None, 0, map[], map[], map[], map[], {}, false, 0, 0, false)

  const CHANNEL_COUNT: nat := 32
  const FILTER_COUNT: nat := 32
  const MASK_COUNT: nat := 4

  /** CANGetPendingEventCode: the channel of the highest-priority pending
      event, or no event. */
  datatype EventCode = ChannelEvent(channel: nat) | NoEvent

  /** One library call, as recorded in a controller's call trace. */
  datatype Call =
    | ModuleEnabled(on: bool)
    | ModeRequested(mode: OpMode)
    | ModeObserved(mode: OpMode)
    | SpeedSet(speed: Speed)
    | MemoryAssigned(size: nat)
    | TxChannelConfigured(channel: nat, buffers: nat, rtrEnabled: bool, priority: Priority)
    | RxChannelConfigured(channel: nat, buffers: nat, rxMode: RxMode)
    | FilterConfigured(filter: nat, id: bv32, idType: IdType)
    | MaskConfigured(mask: nat, value: bv32, idType: IdType, maskType: MaskType)
    | FilterLinked(filter: nat, mask: nat, channel: nat)
    | FilterEnabled(filter: nat, enable: bool)
    | ChannelEventSet(channel: nat, enable: bool)
    | ModuleEventSet(enable: bool)
    | VectorPrioritySet(level: nat)
    | VectorSubPrioritySet(subLevel: nat)
    | InterruptEnabled(enable: bool)
    | TxBufferRequested(channel: nat)
    | ChannelUpdated(channel: nat)
    | TxFlushed(channel: nat)
    | RxMessageRead(channel: nat)

  /** A TX message buffer handed out by CANGetTxMessageBuffer; the driver
      writes its fields in place. */
  class MessageBuffer {
    var sid: bv32
    var eid: bv32
    var ide: bv32
    var rtr: bv32
    var srr: bv32
    var dlc: bv32
    const data: array<bv8>

    constructor ()
      ensures data.Length == 8 && fresh(data)
    {
      data := new bv8[8];
    }

    function Contents(): (f: Frame)
      reads this, data
      requires data.Length == 8
    {
      Frame(sid, eid, ide, rtr, srr, dlc, data[..])
    }
  }

  /** The entry an RX channel keeps for an accepted frame: a full-receive
      channel keeps the whole message, a data-only channel only its eight
      data bytes, with none of the identifier and control fields. */
  function RxEntry(rxMode: RxMode, f: Frame): (e: Frame)
    ensures e.data == f.data
    ensures rxMode == FullReceive ==> e == f
    ensures rxMode == DataOnly ==> e == Frame(0, 0, 0, 0, 0, 0, f.data)
  {
    match rxMode
    case FullReceive => f
    case DataOnly => Frame(0, 0, 0, 0, 0, 0, f.data)
  }

  /** Every queue belongs to a channel of its direction and holds no more
      frames than the channel has message buffers. */
  ghost predicate QueuesFit(c: Config, rx: map<nat, seq<Frame>>, tx: map<nat, seq<Frame>>)
  {
    && (forall ch :: ch in rx ==> ch in c.channels && c.channels[ch].RxChannel? && |rx[ch]| <= c.channels[ch].buffers)
    && (forall ch :: ch in tx ==> ch in c.channels && c.channels[ch].TxChannel? && |tx[ch]| <= c.channels[ch].buffers)
  }

  /** One CAN controller (CAN1 or CAN2) with its FIFOs, events and
      configuration. */
  class CanModule {
    var on: bool
    var mode: OpMode
    var cfg: Config
    /** Channels whose "RX channel not empty" event is enabled. */
    var events: set<nat>
    /** Received frames not yet released by CANUpdateChannel, per RX channel. */
    var rx: map<nat, seq<Frame>>
    /** Frames marked ready by CANUpdateChannel, per TX channel. */
    var tx: map<nat, seq<Frame>>
    /** TX channels told to transmit by CANFlushTxChannel. */
    var flushRequested: set<nat>
    /** Frames this controller has put on the bus. */
    var sent: seq<Frame>
    /** The controller's interrupt flag in the interrupt controller. */
    var intFlag: bool
    /** The next free TX message buffer. */
    const slot: MessageBuffer
    ghost var calls: seq<Call>

    ghost predicate Valid()
      reads this`cfg, this`rx, this`tx
    {
      slot.data.Length == 8 && QueuesFit(cfg, rx, tx)
    }

    /** The state after a device reset. */
    ghost predicate Reset()
      reads this
    {
      && !on && mode == Disable && cfg == ResetConfig && events == {}
      && rx == map[] && tx == map[] && flushRequested == {} && sent == [] && !intFlag
    }

    constructor ()
      ensures Valid() && Reset() && calls == []
      ensures fresh(slot) && fresh(slot.data)
    {
      on, mode, cfg, events := false, Disable, ResetConfig, {};
      rx, tx, flushRequested, sent, intFlag := map[], map[], {}, [], false;
      slot := new MessageBuffer();
      calls := [];
    }

    predicate IsTx(ch: nat)
      reads this`cfg
    {
      ch in cfg.channels && cfg.channels[ch].TxChannel?
    }

    predicate IsRx(ch: nat)
      reads this`cfg
    {
      ch in cfg.channels && cfg.channels[ch].RxChannel?
    }

    /** The receive mode of an RX channel. */
    function RxModeOf(ch: nat): (m: RxMode)
      reads this`cfg
      ensures IsRx(ch) ==> m == cfg.channels[ch].rxMode
    {
      if IsRx(ch) then cfg.channels[ch].rxMode else FullReceive
    }

    /** Number of message buffers of a channel; 0 if it is not configured. */
    function Depth(ch: nat): (n: nat)
      reads this`cfg
    {
      if ch in cfg.channels then cfg.channels[ch].buffers else 0
    }

    function RxQueue(ch: nat): (q: seq<Frame>)
      reads this`rx
    {
      if ch in rx then rx[ch] else []
    }

    function TxQueue(ch: nat): (q: seq<Frame>)
      reads this`tx
    {
      if ch in tx then tx[ch] else []
    }

    /** A TX channel with a free message buffer. */
    predicate TxRoom(ch: nat)
      reads this`cfg, this`tx
    {
      IsTx(ch) && |TxQueue(ch)| < Depth(ch)
    }

    /** An enabled "not empty" event whose condition holds. */
    predicate Pending(ch: nat)
      reads this`events, this`rx
    {
      ch in events && RxQueue(ch) != []
    }

    /** The lowest-numbered channel from k on with a pending event. */
    function PendingFrom(k: nat): (code: EventCode)
      reads this`events, this`rx
      ensures code.ChannelEvent? ==>
        k <= code.channel < CHANNEL_COUNT && Pending(code.channel) &&
        forall j :: k <= j < code.channel ==> !Pending(j)
      ensures code.NoEvent? ==> forall j :: k <= j < CHANNEL_COUNT ==> !Pending(j)
      decreases CHANNEL_COUNT - k
    {
      if k >= CHANNEL_COUNT then NoEvent
      else if Pending(k) then ChannelEvent(k)
      else PendingFrom(k + 1)
    }

    /** An enabled filter whose linked mask accepts the frame. */
    predicate FilterMatches(k: nat, f: Frame)
      reads this`cfg
    {
      && k in cfg.enabledFilters && k in cfg.filters && k in cfg.links
      && cfg.links[k].mask in cfg.masks
      && var flt, mk := cfg.filters[k], cfg.masks[cfg.links[k].mask];
         && (mk.maskType == IdeType ==> (f.ide == 1 <==> flt.idType == Eid))
         && Accepts(flt.id, mk.mask, FrameId(f))
    }

    /** The controller requests its interrupt: the RX module event and the
        interrupt are enabled and an enabled channel event is pending. */
    predicate Interrupting()
      reads this`cfg, this`events, this`rx
    {
      cfg.rxModuleEvent && cfg.interruptEnabled && PendingFrom(0).ChannelEvent?
    }

    /** The lowest-numbered filter from k on that accepts the frame. */
    function MatchingFilter(f: Frame, k: nat): (r: Option<nat>)
      reads this`cfg
      ensures r.Some? ==>
        k <= r.value < FILTER_COUNT && FilterMatches(r.value, f) &&
        forall j :: k <= j < r.value ==> !FilterMatches(j, f)
      ensures r.None? ==> forall j :: k <= j < FILTER_COUNT ==> !FilterMatches(j, f)
      decreases FILTER_COUNT - k
    {
      if k >= FILTER_COUNT then None
      else if FilterMatches(k, f) then Some(k)
      else MatchingFilter(f, k + 1)
    }

    /** The RX channel an accepted frame is stored in, if it has room. */
    function Destination(f: Frame): (dest: Option<nat>)
      reads this`mode, this`cfg, this`rx
    {
      if mode != Normal then None
      else match MatchingFilter(f, 0)
        case None => None
        case Some(k) =>
          var ch := cfg.links[k].channel;
          if IsRx(ch) && |RxQueue(ch)| < Depth(ch) then Some(ch) else None
    }

    // ---- Configuration and mode calls ----

    /** CANEnableModule. */
    method EnableModule(enable: bool)
      modifies this`on, this`calls
      ensures on == enable
      ensures calls == old(calls) + [ModuleEnabled(enable)]
    {
      on := enable;
      calls := calls + [ModuleEnabled(enable)];
    }

    /** CANSetOperatingMode: a switched-on module reaches the requested mode;
        the time the switch takes is not modelled. */
    method SetOperatingMode(m: OpMode)
      modifies this`mode, this`calls
      ensures mode == if on then m else old(mode)
      ensures calls == old(calls) + [ModeRequested(m)]
    {
      if on {
        mode := m;
      }
      calls := calls + [ModeRequested(m)];
    }

    /** CANGetOperatingMode. */
    method GetOperatingMode() returns (m: OpMode)
      modifies this`calls
      ensures m == mode
      ensures calls == old(calls) + [ModeObserved(m)]
    {
      m := mode;
      calls := calls + [ModeObserved(m)];
    }

    /** CANSetSpeed; only in Configuration mode. */
    method SetSpeed(bits: BitConfig, sysClock: nat, busSpeed: nat)
      requires Valid() && mode == Configuration
      modifies this`cfg, this`calls
      ensures Valid()
      ensures cfg == old(cfg).(speed := Some(Speed(bits, sysClock, busSpeed)))
      ensures calls == old(calls) + [SpeedSet(Speed(bits, sysClock, busSpeed))]
    {
      cfg := cfg.(speed := Some(Speed(bits, sysClock, busSpeed)));
      calls := calls + [SpeedSet(Speed(bits, sysClock, busSpeed))];
    }

    /** CANAssignMemoryBuffer; only in Configuration mode. */
    method AssignMemoryBuffer(size: nat)
      requires Valid() && mode == Configuration
      modifies this`cfg, this`calls
      ensures Valid()
      ensures cfg == old(cfg).(memory := size)
      ensures calls == old(calls) + [MemoryAssigned(size)]
    {
      cfg := cfg.(memory := size);
      calls := calls + [MemoryAssigned(size)];
    }

    /** CANConfigureChannelForTx; only in Configuration mode, channel 0 to
        31, 1 to 32 buffers. Configuring a channel empties its FIFO. */
    method ConfigureChannelForTx(ch: nat, buffers: nat, rtrEnabled: bool, priority: Priority)
      requires Valid() && mode == Configuration
      requires ch < CHANNEL_COUNT && 1 <= buffers <= 32
      modifies this`cfg, this`rx, this`tx, this`calls
      ensures Valid()
      ensures cfg == old(cfg).(channels := old(cfg.channels)[ch := TxChannel(buffers, rtrEnabled, priority)])
      ensures rx == old(rx) - {ch} && tx == old(tx) - {ch}
      ensures calls == old(calls) + [TxChannelConfigured(ch, buffers, rtrEnabled, priority)]
    {
      cfg := cfg.(channels := cfg.channels[ch := TxChannel(buffers, rtrEnabled, priority)]);
      rx, tx := rx - {ch}, tx - {ch};
      calls := calls + [TxChannelConfigured(ch, buffers, rtrEnabled, priority)];
    }

    /** CANConfigureChannelForRx; as for TX. */
    method ConfigureChannelForRx(ch: nat, buffers: nat, rxMode: RxMode)
      requires Valid() && mode == Configuration
      requires ch < CHANNEL_COUNT && 1 <= buffers <= 32
      modifies this`cfg, this`rx, this`tx, this`calls
      ensures Valid()
      ensures cfg == old(cfg).(channels := old(cfg.channels)[ch := RxChannel(buffers, rxMode)])
      ensures rx == old(rx) - {ch} && tx == old(tx) - {ch}
      ensures calls == old(calls) + [RxChannelConfigured(ch, buffers, rxMode)]
    {
      cfg := cfg.(channels := cfg.channels[ch := RxChannel(buffers, rxMode)]);
      rx, tx := rx - {ch}, tx - {ch};
      calls := calls + [RxChannelConfigured(ch, buffers, rxMode)];
    }

    /** CANConfigureFilter: filter 0 to 31, identifier 0 to 0x1FFFFFFF. */
    method ConfigureFilter(filter: nat, id: bv32, idType: IdType)
      requires Valid() && filter < FILTER_COUNT && id <= EID_FILTER_MASK
      modifies this`cfg, this`calls
      ensures Valid()
      ensures cfg == old(cfg).(filters := old(cfg.filters)[filter := FilterCfg(id, idType)])
      ensures calls == old(calls) + [FilterConfigured(filter, id, idType)]
    {
      cfg := cfg.(filters := cfg.filters[filter := FilterCfg(id, idType)]);
      calls := calls + [FilterConfigured(filter, id, idType)];
    }

    /** CANConfigureFilterMask: mask 0 to 3, only in Configuration mode. */
    method ConfigureFilterMask(mask: nat, value: bv32, idType: IdType, maskType: MaskType)
      requires Valid() && mode == Configuration
      requires mask < MASK_COUNT && value <= EID_FILTER_MASK
      modifies this`cfg, this`calls
      ensures Valid()
      ensures cfg == old(cfg).(masks := old(cfg.masks)[mask := MaskCfg(value, idType, maskType)])
      ensures calls == old(calls) + [MaskConfigured(mask, value, idType, maskType)]
    {
      cfg := cfg.(masks := cfg.masks[mask := MaskCfg(value, idType, maskType)]);
      calls := calls + [MaskConfigured(mask, value, idType, maskType)];
    }

    /** CANLinkFilterToChannel. */
    method LinkFilterToChannel(filter: nat, mask: nat, ch: nat)
      requires Valid() && filter < FILTER_COUNT && mask < MASK_COUNT && ch < CHANNEL_COUNT
      modifies this`cfg, this`calls
      ensures Valid()
      ensures cfg == old(cfg).(links := old(cfg.links)[filter := FilterLink(mask, ch)])
      ensures calls == old(calls) + [FilterLinked(filter, mask, ch)]
    {
      cfg := cfg.(links := cfg.links[filter := FilterLink(mask, ch)]);
      calls := calls + [FilterLinked(filter, mask, ch)];
    }

    /** CANEnableFilter. */
    method EnableFilter(filter: nat, enable: bool)
      requires Valid() && filter < FILTER_COUNT
      modifies this`cfg, this`calls
      ensures Valid()
      ensures cfg == old(cfg).(enabledFilters := if enable then old(cfg.enabledFilters) + {filter} else old(cfg.enabledFilters) - {filter})
      ensures calls == old(calls) + [FilterEnabled(filter, enable)]
    {
      cfg := cfg.(enabledFilters := if enable then cfg.enabledFilters + {filter} else cfg.enabledFilters - {filter});
      calls := calls + [FilterEnabled(filter, enable)];
    }

    /** INTSetVectorPriority for this controller's vector. */
    method SetVectorPriority(level: nat)
      modifies this`cfg, this`calls
      ensures cfg == old(cfg).(vectorPriority := level)
      ensures calls == old(calls) + [VectorPrioritySet(level)]
    {
      cfg := cfg.(vectorPriority := level);
      calls := calls + [VectorPrioritySet(level)];
    }

    /** INTSetVectorSubPriority for this controller's vector. */
    method SetVectorSubPriority(subLevel: nat)
      modifies this`cfg, this`calls
      ensures cfg == old(cfg).(vectorSubPriority := subLevel)
      ensures calls == old(calls) + [VectorSubPrioritySet(subLevel)]
    {
      cfg := cfg.(vectorSubPriority := subLevel);
      calls := calls + [VectorSubPrioritySet(subLevel)];
    }

    /** INTEnable for this controller's interrupt source. */
    method EnableInterrupt(enable: bool)
      modifies this`cfg, this`calls
      ensures cfg == old(cfg).(interruptEnabled := enable)
      ensures calls == old(calls) + [InterruptEnabled(enable)]
    {
      cfg := cfg.(interruptEnabled := enable);
      calls := calls + [InterruptEnabled(enable)];
    }

    /** CANEnableModuleEvent for CAN_RX_EVENT. */
    method EnableModuleEvent(enable: bool)
      requires Valid()
      modifies this`cfg, this`calls
      ensures Valid()
      ensures cfg == old(cfg).(rxModuleEvent := enable)
      ensures calls == old(calls) + [ModuleEventSet(enable)]
    {
      cfg := cfg.(rxModuleEvent := enable);
      calls := calls + [ModuleEventSet(enable)];
    }

    /** CANEnableChannelEvent for CAN_RX_CHANNEL_NOT_EMPTY; allowed in any
        mode, so that the receive path can switch it at run time. */
    method EnableChannelEvent(ch: nat, enable: bool)
      requires ch < CHANNEL_COUNT
      modifies this`events, this`calls
      ensures events == if enable then old(events) + {ch} else old(events) - {ch}
      ensures calls == old(calls) + [ChannelEventSet(ch, enable)]
    {
      events := if enable then events + {ch} else events - {ch};
      calls := calls + [ChannelEventSet(ch, enable)];
    }

    // ---- Run-time calls ----

    /** CANGetTxMessageBuffer: the next free buffer of a TX channel, or
        null when the channel has none. */
    method GetTxMessageBuffer(ch: nat) returns (buf: MessageBuffer?)
      modifies this`calls
      ensures buf == if TxRoom(ch) then slot else null
      ensures calls == old(calls) + [TxBufferRequested(ch)]
    {
      buf := if TxRoom(ch) then slot else null;
      calls := calls + [TxBufferRequested(ch)];
    }

    /** CANUpdateChannel: on a TX channel the handed-out buffer becomes
        ready to send; on an RX channel the oldest message is released. */
    method UpdateChannel(ch: nat)
      requires Valid()
      modifies this`rx, this`tx, this`calls
      ensures Valid()
      ensures tx == if old(TxRoom(ch)) then old(tx)[ch := old(TxQueue(ch)) + [slot.Contents()]] else old(tx)
      ensures rx == if !old(IsTx(ch)) && old(RxQueue(ch)) != [] then old(rx)[ch := old(RxQueue(ch))[1..]] else old(rx)
      ensures calls == old(calls) + [ChannelUpdated(ch)]
    {
      if TxRoom(ch) {
        tx := tx[ch := TxQueue(ch) + [slot.Contents()]];
      } else if !IsTx(ch) && RxQueue(ch) != [] {
        rx := rx[ch := RxQueue(ch)[1..]];
      }
      calls := calls + [ChannelUpdated(ch)];
    }

    /** CANFlushTxChannel: the channel starts sending its ready buffers. */
    method FlushTxChannel(ch: nat)
      modifies this`flushRequested, this`calls
      ensures flushRequested == if IsTx(ch) then old(flushRequested) + {ch} else old(flushRequested)
      ensures calls == old(calls) + [TxFlushed(ch)]
    {
      if IsTx(ch) {
        flushRequested := flushRequested + {ch};
      }
      calls := calls + [TxFlushed(ch)];
    }

    /** CANGetRxMessage: the oldest message of an RX channel, or none (the
        library's NULL) when the channel is empty. */
    method GetRxMessage(ch: nat) returns (msg: Option<Frame>)
      modifies this`calls
      ensures msg == if RxQueue(ch) == [] then None else Some(RxQueue(ch)[0])
      ensures calls == old(calls) + [RxMessageRead(ch)]
    {
      msg := if RxQueue(ch) == [] then None else Some(RxQueue(ch)[0]);
      calls := calls + [RxMessageRead(ch)];
    }

    /** CANGetModuleEvent, tested against CAN_RX_EVENT: some enabled RX
        channel event is active. */
    method GetModuleEvent() returns (rxEvent: bool)
      ensures rxEvent <==> exists ch :: 0 <= ch < CHANNEL_COUNT && Pending(ch)
    {
      rxEvent := PendingFrom(0).ChannelEvent?;
    }

    /** CANGetPendingEventCode. */
    method GetPendingEventCode() returns (code: EventCode)
      ensures code.ChannelEvent? ==> Pending(code.channel) && forall j :: 0 <= j < code.channel ==> !Pending(j)
      ensures code.NoEvent? ==> forall j :: 0 <= j < CHANNEL_COUNT ==> !Pending(j)
      ensures code == PendingFrom(0)
    {
      code := PendingFrom(0);
    }

    /** INTClearFlag for this controller's interrupt: the flag cannot be
        cleared while the condition that raises it persists, so it stays
        raised exactly when an enabled event is still pending. */
    method ClearInterruptFlag()
      modifies this`intFlag
      ensures intFlag == Interrupting()
    {
      intFlag := Interrupting();
    }

    // ---- Hardware steps ----

    /** A frame arrives from the bus: the lowest-numbered accepting filter
        decides the RX channel, which stores it, as its receive mode
        dictates, if it has room. */
    method ReceiveFromBus(f: Frame)
      requires Valid()
      modifies this`rx
      ensures Valid()
      ensures rx == match old(Destination(f))
        case None => old(rx)
        case Some(ch) => old(rx)[ch := old(RxQueue(ch)) + [RxEntry(RxModeOf(ch), f)]]
    {
      match Destination(f) {
        case None =>
        case Some(ch) =>
          rx := rx[ch := RxQueue(ch) + [RxEntry(RxModeOf(ch), f)]];
      }
    }

    /** The interrupt flag rises while the RX module event and the
        interrupt are enabled and an enabled channel event is pending. */
    method RaiseInterrupt()
      requires Interrupting()
      modifies this`intFlag
      ensures intFlag
    {
      intFlag := true;
    }

    /** A flushed TX channel puts its oldest ready frame on the bus. */
    method TransmitNext(ch: nat)
      requires Valid() && ch in flushRequested && TxQueue(ch) != []
      modifies this`tx, this`sent, this`flushRequested
      ensures Valid()
      ensures sent == old(sent) + [old(TxQueue(ch))[0]]
      ensures tx == old(tx)[ch := old(TxQueue(ch))[1..]]
      ensures flushRequested == if |old(TxQueue(ch))| == 1 then old(flushRequested) - {ch} else old(flushRequested)
    {
      sent := sent + [TxQueue(ch)[0]];
      if |TxQueue(ch)| == 1 {
        flushRequested := flushRequested - {ch};
      }
      tx := tx[ch := TxQueue(ch)[1..]];
    }
  }
}
