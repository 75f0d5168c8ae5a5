# PIC32 CAN remote-request link and I2C EEPROM driver, modelled in Dafny

This project models two small drivers for the PIC32 microcontroller.

**The CAN link driver** (`CANFunctions_first_attempt.c/.h`) does four things:

- It initialises the two CAN controllers. Each is switched to Configuration mode and given:
  - bit timing and message memory;
  - transmit and receive channels;
  - acceptance filters under the full 29-bit mask, each for one 29-bit extended identifier: filter 0 on CAN1; filters 1 and 2 on CAN2;
  - a channel-not-empty interrupt.

  Then it is switched to Normal mode.
- CAN1 sends a remote-transmission request (RTR) for `CAN_EID_MSG_2`.
- CAN2 sends an 8-byte data frame with `CAN_EID_MSG_1`.
- A receive interrupt raises a flag. The mainline sees the flag, reads the message, drives an indicator from its first byte and re-arms the channel event.

The CAN peripheral library (plib) is not part of this model. It is represented by the class `PlibCan.CanModule`, which holds:

- the operating mode;
- the configuration of channels, filters and masks;
- the enabled channel events;
- the receive and transmit queues;
- the message buffer handed out for transmission;
- a log of the library calls made.

Each library function becomes a method with a contract. Three further methods stand for what the hardware does by itself: storing an accepted frame, raising the interrupt and transmitting a queued frame. These let the driver's functions be composed into end-to-end scenarios (module `CanLink`).

**The I2C EEPROM library** (`I2Clib.c/.h`) does three things:

- It writes a three-byte header (control byte and 16-bit memory address) and then the data. A sticky NAK flag stops the writing at the first unacknowledged byte. When no byte was NAKed, it polls the device until the device acknowledges.
- It reads: the header, a repeated start and the read command, then the data, acknowledging every byte but the last, which gets NACK.
- It derives its baud-rate generator value from the clock constants.

The bus itself is not part of this model. It is represented by parameters:

- `nak`: the ACKSTAT of each written byte;
- `probes`: the outcome of each polling cycle;
- `incoming`: the bytes the EEPROM returns.

Each operation returns the sequence of bus operations it performs.

Modules:

| file | module | models |
|---|---|---|
| can_constants.dfy | CanConstants | constants of `CANFunctions_first_attempt.h` and plib |
| can_ident.dfy | CanIdent | the SID/EID split of an extended identifier and filter acceptance |
| plib_can.dfy | PlibCan | the CAN controller as plib presents it |
| can_driver.dfy | CanDriver | `CAN1Init`, `CAN2Init`, `CAN1TxSendRTRMsg`, `CAN2TxSendIODataMsg` |
| can_receive.dfy | CanReceive | the interrupt handlers and `CAN1RxMsgProcess`/`CAN2RxMsgProcess` |
| can_link.dfy | CanLink | the two configured controllers exchanging frames |
| i2c_eeprom.dfy | I2CEeprom | `I2CWrtiteEEPROM` (here `I2CWriteEEPROM`), `I2CReadEEPROM`, `wait_i2c_xfer` |
| i2c_clock.dfy | I2CClock | `PBCLK`, `Fsck`, `BRG_VAL` and the resulting bit rate |

Where the code and its comments disagree, the model follows the code:

- Channel 1 of CAN1 is commented as RTR-enabled with high-medium priority (`dona1865-443-p6/FreeRTOS/Projects/CANFunctions_first_attempt.c:102-103`). The code configures it with RTR disabled and `CAN_LOW_MEDIUM_PRIORITY` (`dona1865-443-p6/FreeRTOS/Projects/CANFunctions_first_attempt.c:123-125`).
- CAN1's receive channel 2 is commented as receiving the full message (`dona1865-443-p6/FreeRTOS/Projects/CANFunctions_first_attempt.c:104-105`). The code configures it as `CAN_RX_DATA_ONLY` (`dona1865-443-p6/FreeRTOS/Projects/CANFunctions_first_attempt.c:133-134`).
- CAN1's receive channel is sized with `CAN2_FIFO_BUFFERS` (`dona1865-443-p6/FreeRTOS/Projects/CANFunctions_first_attempt.c:133`). Both constants are 8.
- The receive flags are commented as belonging to "FIFO1". CAN1's filter and event use channel 2 (see Findings).

## Model

| member | source | states |
|---|---|---|
| CanConstants.MessageMemorySizes | dona1865-443-p6/FreeRTOS/Projects/CANFunctions_first_attempt.h:25-36 | CAN1's message area is 384 bytes and CAN2's is 256: channels × buffers × 16 bytes, a buffer being four 32-bit words |
| CanConstants.MasksCoverExtendedId | dona1865-443-p6/FreeRTOS/Projects/CANFunctions_first_attempt.h:38-42 | SID_MASK (shifted by 18) and EID_MASK are disjoint; together they form EID_FILTER_MASK, which covers exactly the 29-bit identifier space |
| CanConstants.MessageIdsWellFormed | dona1865-443-p6/FreeRTOS/Projects/CANFunctions_first_attempt.h:44-49 | the three message identifiers are distinct 29-bit identifiers with bits 16–17 clear; CAN2_MSG_ID is CAN_EID_MSG_4 |
| CanIdent.Word | dona1865-443-p6/FreeRTOS/Projects/CANFunctions_first_attempt.c:450 | the (WORD) cast keeps the value modulo 2^16 |
| CanIdent.SidOf | dona1865-443-p6/FreeRTOS/Projects/CANFunctions_first_attempt.c:449 | SID fits in 11 bits and is the top 11 bits of a 29-bit identifier |
| CanIdent.EidField | dona1865-443-p6/FreeRTOS/Projects/CANFunctions_first_attempt.c:450 | EID as written keeps the identifier modulo 2^16, i.e. drops bits 16–17 |
| CanIdent.EidOf | dona1865-443-p6/FreeRTOS/Projects/CANFunctions_first_attempt.h:39 | the intended EID is the identifier's low 18 bits, within EID_MASK |
| CanIdent.Join | dona1865-443-p6/FreeRTOS/Projects/CANFunctions_first_attempt.h:38-39 | a frame's SID and EID fields carry a 29-bit identifier whose top 11 bits are the SID and whose low 18 bits are the EID |
| CanIdent.SplitJoin | dona1865-443-p6/FreeRTOS/Projects/CANFunctions_first_attempt.c:449-450 | splitting any 29-bit identifier into SID and the intended EID and joining them gives the identifier back |
| CanIdent.AsWrittenSplitJoin | dona1865-443-p6/FreeRTOS/Projects/CANFunctions_first_attempt.c:494-495 | with the (WORD) cast the round trip holds iff bits 16–17 of the identifier are clear |
| CanIdent.AsWrittenLosesBits | dona1865-443-p6/FreeRTOS/Projects/CANFunctions_first_attempt.c:450 | identifier 0x30000 is transmitted as identifier 0 as written, and as 0x30000 with the intended EID |
| CanIdent.DriverIdsUnaffected | dona1865-443-p6/FreeRTOS/Projects/CANFunctions_first_attempt.h:44-46 | for the three identifiers the driver sends, the as-written and the intended EID agree |
| CanIdent.FullMaskAcceptsExactly | dona1865-443-p6/FreeRTOS/Projects/CANFunctions_first_attempt.c:157-158 | under the full 29-bit mask a filter accepts an identifier iff it equals the filter's identifier |
| CanIdent.BelowLimitIsMasked | dona1865-443-p6/FreeRTOS/Projects/CANFunctions_first_attempt.h:42 | a 29-bit identifier is unchanged by EID_FILTER_MASK |
| PlibCan.CanModule.constructor | dona1865-443-p6/FreeRTOS/Projects/CANFunctions_first_attempt.c:37-51 | a controller out of reset: off, no channels, no filters, empty queues, no calls |
| PlibCan.MessageBuffer.constructor | dona1865-443-p6/FreeRTOS/Projects/CANFunctions_first_attempt.c:440 | a message buffer handed to the driver has room for eight data bytes, in a fresh array |
| PlibCan.CanModule.PendingFrom | dona1865-443-p6/FreeRTOS/Projects/CANFunctions_first_attempt.c:542 | the event code names the lowest pending channel at or after k, or no event when none is pending |
| PlibCan.CanModule.MatchingFilter | dona1865-443-p6/FreeRTOS/Projects/CANFunctions_first_attempt.c:147-173 | the result is the lowest enabled filter that accepts the frame, or none when no filter accepts it |
| PlibCan.CanModule.EnableModule | dona1865-443-p6/FreeRTOS/Projects/CANFunctions_first_attempt.c:51 | the module is switched on or off as requested |
| PlibCan.CanModule.SetOperatingMode | dona1865-443-p6/FreeRTOS/Projects/CANFunctions_first_attempt.c:68 | a switched-on module enters the requested mode; a switched-off one keeps its mode |
| PlibCan.CanModule.GetOperatingMode | dona1865-443-p6/FreeRTOS/Projects/CANFunctions_first_attempt.c:69 | reports the current mode |
| PlibCan.CanModule.SetSpeed | dona1865-443-p6/FreeRTOS/Projects/CANFunctions_first_attempt.c:76-83 | in Configuration mode, records bit timing, system clock and bus speed and nothing else |
| PlibCan.CanModule.AssignMemoryBuffer | dona1865-443-p6/FreeRTOS/Projects/CANFunctions_first_attempt.c:97 | in Configuration mode, records the message-area size |
| PlibCan.CanModule.ConfigureChannelForTx | dona1865-443-p6/FreeRTOS/Projects/CANFunctions_first_attempt.c:119-125 | makes the channel a transmit channel of the given depth, RTR setting and priority, emptying its queues |
| PlibCan.CanModule.ConfigureChannelForRx | dona1865-443-p6/FreeRTOS/Projects/CANFunctions_first_attempt.c:133-134 | makes the channel a receive channel of the given depth and receive mode, emptying its queues |
| PlibCan.CanModule.ConfigureFilter | dona1865-443-p6/FreeRTOS/Projects/CANFunctions_first_attempt.c:147 | sets the filter's identifier and identifier type |
| PlibCan.CanModule.ConfigureFilterMask | dona1865-443-p6/FreeRTOS/Projects/CANFunctions_first_attempt.c:157-158 | in Configuration mode, sets the mask's value, identifier type and mask type |
| PlibCan.CanModule.LinkFilterToChannel | dona1865-443-p6/FreeRTOS/Projects/CANFunctions_first_attempt.c:166 | links the filter to a mask and a destination channel |
| PlibCan.CanModule.EnableFilter | dona1865-443-p6/FreeRTOS/Projects/CANFunctions_first_attempt.c:173 | adds the filter to (or removes it from) the enabled set |
| PlibCan.CanModule.EnableChannelEvent | dona1865-443-p6/FreeRTOS/Projects/CANFunctions_first_attempt.c:200 | adds the channel to (or removes it from) the enabled channel events |
| PlibCan.CanModule.EnableModuleEvent | dona1865-443-p6/FreeRTOS/Projects/CANFunctions_first_attempt.c:220 | turns the module-level receive event on or off |
| PlibCan.CanModule.SetVectorPriority | dona1865-443-p6/FreeRTOS/Projects/CANFunctions_first_attempt.c:223 | records the interrupt priority |
| PlibCan.CanModule.SetVectorSubPriority | dona1865-443-p6/FreeRTOS/Projects/CANFunctions_first_attempt.c:224 | records the interrupt sub-priority |
| PlibCan.CanModule.EnableInterrupt | dona1865-443-p6/FreeRTOS/Projects/CANFunctions_first_attempt.c:225 | records whether the CAN interrupt is enabled |
| PlibCan.CanModule.GetTxMessageBuffer | dona1865-443-p6/FreeRTOS/Projects/CANFunctions_first_attempt.c:440-441 | returns the message buffer when the transmit channel has room, and null otherwise |
| PlibCan.CanModule.UpdateChannel | dona1865-443-p6/FreeRTOS/Projects/CANFunctions_first_attempt.c:458 | on a transmit channel with room, the buffer's frame joins the end of the queue; on a receive channel, the oldest frame is released; queues stay within their depths |
| PlibCan.CanModule.FlushTxChannel | dona1865-443-p6/FreeRTOS/Projects/CANFunctions_first_attempt.c:462 | a transmit channel is marked for transmission; other channels are unaffected |
| PlibCan.CanModule.GetRxMessage | dona1865-443-p6/FreeRTOS/Projects/CANFunctions_first_attempt.c:343 | returns the oldest frame of the channel, or none when it is empty |
| PlibCan.CanModule.GetModuleEvent | dona1865-443-p6/FreeRTOS/Projects/CANFunctions_first_attempt.c:537 | reports a receive event iff some enabled channel event is pending |
| PlibCan.CanModule.GetPendingEventCode | dona1865-443-p6/FreeRTOS/Projects/CANFunctions_first_attempt.c:542 | names the lowest-numbered pending channel, or no event when none is pending |
| PlibCan.CanModule.ClearInterruptFlag | dona1865-443-p6/FreeRTOS/Projects/CANFunctions_first_attempt.c:561-566 | the flag ends clear unless the module event and interrupt are enabled and an enabled channel event is still pending, in which case it stays raised |
| PlibCan.CanModule.ReceiveFromBus | dona1865-443-p6/FreeRTOS/Projects/CANFunctions_first_attempt.c:131-134 | an accepted frame is appended to the channel its filter is linked to, as that channel's receive mode keeps it; a frame with no destination is dropped |
| PlibCan.RxEntry | dona1865-443-p6/FreeRTOS/Projects/CANFunctions_first_attempt.c:131-134 | a full-receive channel keeps the whole message; a data-only channel keeps the eight data bytes and no identifier or control fields |
| PlibCan.CanModule.RaiseInterrupt | dona1865-443-p6/FreeRTOS/Projects/CANFunctions_first_attempt.c:220-225 | with the module event and interrupt enabled and a channel event pending, the interrupt flag is set |
| PlibCan.CanModule.TransmitNext | dona1865-443-p6/FreeRTOS/Projects/CANFunctions_first_attempt.c:462 | the oldest frame of a flushed transmit channel goes onto the bus and leaves the queue |
| CanDriver.SetTiming | dona1865-443-p6/FreeRTOS/Projects/CANFunctions_first_attempt.c:76-97 | sets bit timing for 80 MHz and 250 kbit/s and assigns the message area |
| CanDriver.Can1Channels | dona1865-443-p6/FreeRTOS/Projects/CANFunctions_first_attempt.c:119-134 | CAN1 gets two 8-buffer transmit channels (0, 1) and one 8-buffer data-only receive channel (2) |
| CanDriver.Can2Channels | dona1865-443-p6/FreeRTOS/Projects/CANFunctions_first_attempt.c:272-277 | CAN2 gets an RTR-enabled transmit channel 0 and a full-receive channel 1 |
| CanDriver.SetFilter | dona1865-443-p6/FreeRTOS/Projects/CANFunctions_first_attempt.c:147-173 | one filter gets an extended identifier and the full 29-bit mask, is linked to a channel and enabled |
| CanDriver.EnableRxInterrupt | dona1865-443-p6/FreeRTOS/Projects/CANFunctions_first_attempt.c:200-225 | the channel's not-empty event, the module receive event and the interrupt (priority 4, sub-priority 0) are enabled |
| CanDriver.EnterMode | dona1865-443-p6/FreeRTOS/Projects/CANFunctions_first_attempt.c:68-69 | the controller ends in the requested mode, observed by a readback |
| CanDriver.Can1Configure | dona1865-443-p6/FreeRTOS/Projects/CANFunctions_first_attempt.c:76-225 | the whole CAN1 configuration: channels, filter 0 for CAN_EID_MSG_1 on channel 2, the channel-2 event |
| CanDriver.CAN1Init | dona1865-443-p6/FreeRTOS/Projects/CANFunctions_first_attempt.c:37-231 | CAN1 ends in Normal mode with that configuration, empty queues, only the channel-2 event enabled and the library called in the source's order |
| CanDriver.Can2Configure | dona1865-443-p6/FreeRTOS/Projects/CANFunctions_first_attempt.c:259-302 | the whole CAN2 configuration: filter 1 for CAN_EID_MSG_2 linked to transmit channel 0, filter 2 for CAN_EID_MSG_4 linked to receive channel 1, the channel-1 event |
| CanDriver.CAN2Init | dona1865-443-p6/FreeRTOS/Projects/CANFunctions_first_attempt.c:241-307 | CAN2 ends in Normal mode with that configuration, empty queues, only the channel-1 event enabled and the library called in the source's order |
| CanDriver.InitConfiguresInConfigurationMode | dona1865-443-p6/FreeRTOS/Projects/CANFunctions_first_attempt.c:51-229 | every configuration call comes after Configuration mode was observed and before Normal mode is requested |
| CanDriver.FilterCallsSetUp | dona1865-443-p6/FreeRTOS/Projects/CANFunctions_first_attempt.c:147-173 | the filter-setup sequence configures, masks and links a filter before enabling it |
| CanDriver.InitFiltersSetUpBeforeEnabled | dona1865-443-p6/FreeRTOS/Projects/CANFunctions_first_attempt.c:281-292 | in both initialisations every enabled filter was configured, masked and linked beforehand |
| CanDriver.ChannelLayout | dona1865-443-p6/FreeRTOS/Projects/CANFunctions_first_attempt.h:25-35 | CAN1 uses 3 channels and CAN2 uses 2, all of 8 buffers, matching the message areas; every enabled filter is complete |
| CanDriver.RemoteRequestFrameCarriesId | dona1865-443-p6/FreeRTOS/Projects/CANFunctions_first_attempt.c:444-454 | the RTR frame carries its identifier, with RTR and SRR set, a DLC of 0 and zero data |
| CanDriver.DataFrameCarriesId | dona1865-443-p6/FreeRTOS/Projects/CANFunctions_first_attempt.c:489-506 | the data frame carries its identifier, RTR clear, a DLC of 8 and the eight given bytes in order |
| CanDriver.ClearMessage | dona1865-443-p6/FreeRTOS/Projects/CANFunctions_first_attempt.c:444-447 | the message buffer holds the all-zero frame |
| CanDriver.WriteRemoteRequest | dona1865-443-p6/FreeRTOS/Projects/CANFunctions_first_attempt.c:444-454 | the buffer holds an extended RTR frame with the as-written SID/EID split |
| CanDriver.WriteDataMessage | dona1865-443-p6/FreeRTOS/Projects/CANFunctions_first_attempt.c:489-506 | the buffer holds an extended 8-byte data frame with the given bytes |
| CanDriver.WriteData | dona1865-443-p6/FreeRTOS/Projects/CANFunctions_first_attempt.c:499-506 | the data field holds the eight bytes in order |
| CanDriver.CAN1TxSendRTRMsg | dona1865-443-p6/FreeRTOS/Projects/CANFunctions_first_attempt.c:434-464 | with room, the RTR frame for CAN_EID_MSG_2 joins the end of channel 0 and the channel is flushed; without room nothing changes |
| CanDriver.CAN2TxSendIODataMsg | dona1865-443-p6/FreeRTOS/Projects/CANFunctions_first_attempt.c:478-516 | with room, the data frame for CAN_EID_MSG_1 with the given bytes joins the end of channel 0 and the channel is flushed; without room nothing changes |
| CanReceive.RxHandoff.constructor | dona1865-443-p6/FreeRTOS/Projects/CANFunctions_first_attempt.c:21-27 | the received flag starts false |
| CanReceive.RxHandoff.InterruptHandler | dona1865-443-p6/FreeRTOS/Projects/CANFunctions_first_attempt.c:530-567 | when the handoff's channel is the pending event, the flag is set and the channel event disabled; otherwise nothing changes; afterwards the interrupt flag is raised iff an enabled event is still pending |
| CanReceive.RxHandoff.RxMsgProcess | dona1865-443-p6/FreeRTOS/Projects/CANFunctions_first_attempt.c:322-364 | without the flag nothing changes; with it, the flag is cleared, the indicator follows byte 0 of the oldest message, that message is released and the channel event re-enabled |
| CanReceive.CAN2RxMsgProcess | dona1865-443-p6/FreeRTOS/Projects/CANFunctions_first_attempt.c:379-420 | without the flag nothing changes; with it, the flag is cleared, the indicator follows byte 0 of the oldest message, that message is read, released and the event re-enabled, in that order, and a remote-request reply is asked for exactly then |
| CanLink.Can1Filtering | dona1865-443-p6/FreeRTOS/Projects/CANFunctions_first_attempt.c:147-173 | a configured CAN1 accepts an extended frame (with filter 0) iff its identifier is CAN_EID_MSG_1 |
| CanLink.Can2Filtering | dona1865-443-p6/FreeRTOS/Projects/CANFunctions_first_attempt.c:281-292 | a configured CAN2 accepts CAN_EID_MSG_2 with filter 1, CAN_EID_MSG_4 with filter 2, and nothing else |
| CanLink.TxChannelNeverSignals | dona1865-443-p6/FreeRTOS/Projects/CANFunctions_first_attempt.c:119-125 | a transmit channel never holds received frames and is never the pending receive event |
| CanLink.OnlyEnabledChannelPending | dona1865-443-p6/FreeRTOS/Projects/CANFunctions_first_attempt.c:542 | with one channel event enabled, that channel is pending iff it holds a frame |
| CanLink.Can1Destination | dona1865-443-p6/FreeRTOS/Projects/CANFunctions_first_attempt.c:166 | on CAN1 a CAN_EID_MSG_1 frame goes to channel 2 |
| CanLink.Can2Destination | dona1865-443-p6/FreeRTOS/Projects/CANFunctions_first_attempt.c:291 | on CAN2 a CAN_EID_MSG_4 frame goes to channel 1 |
| CanLink.ArriveAndHandle | dona1865-443-p6/FreeRTOS/Projects/CANFunctions_first_attempt.c:537-566 | a frame arriving on an empty channel is queued; the flag is raised iff that channel is the handoff's; otherwise the interrupt flag stays raised after the handler |
| CanLink.Can1ReceiveAsWritten | dona1865-443-p6/FreeRTOS/Projects/CANFunctions_first_attempt.c:542 | as written, a CAN_EID_MSG_1 frame reaching CAN1 never sets the flag, leaves the interrupt flag raised after the handler and stays queued |
| CanLink.Can1ReceiveOnChannel2 | dona1865-443-p6/FreeRTOS/Projects/CANFunctions_first_attempt.c:322-364 | with handler and mainline on channel 2, the flag is set, the indicator follows byte 0 and the channel is drained |
| CanLink.Can2Receive | dona1865-443-p6/FreeRTOS/Projects/CANFunctions_first_attempt.c:379-420 | a CAN_EID_MSG_4 frame reaching CAN2 sets the flag, drives the indicator from byte 0, is released and asks for a remote-request reply |
| CanLink.Can2SendsIoData | dona1865-443-p6/FreeRTOS/Projects/CANFunctions_first_attempt.c:478-516 | CAN2 initialised and sending puts exactly one data frame for CAN_EID_MSG_1 with the given bytes on the bus |
| CanLink.Can1ReceivesIoData | dona1865-443-p6/FreeRTOS/Projects/CANFunctions_first_attempt.c:131-173 | that frame, given to an initialised CAN1, is stored once in its data-only channel: the eight bytes in order, without the identifier |
| CanLink.Can2GetsRemoteRequest | dona1865-443-p6/FreeRTOS/Projects/CANFunctions_first_attempt.c:281-285 | CAN1's remote request is accepted by CAN2's filter 1, but it is not stored in a receive channel |
| I2CEeprom.HeaderRoundTrip | dona1865-443-p7/IP_PKG_12-2013/Microchip/Common/I2Clib.c:129-131 | the header is three bytes: the control byte (a 7-bit address, write bit clear) and the memory address, high byte first, which recombine to the address |
| I2CEeprom.Header | dona1865-443-p7/IP_PKG_12-2013/Microchip/Common/I2Clib.c:129-131 | the header is three bytes: a control byte with the write bit clear, then two bytes that hold the memory address modulo 2^16, high byte first |
| I2CEeprom.AddressBytes | dona1865-443-p7/IP_PKG_12-2013/Microchip/Common/I2Clib.c:130-131 | the truncated high and low bytes of any int address recombine to it modulo 2^16 |
| I2CEeprom.ControlBytes | dona1865-443-p7/IP_PKG_12-2013/Microchip/Common/I2Clib.c:129 | the address shifted left and truncated to a byte holds the low 7 bits of the address, with the R/W bit 0 for a write and 1 for a read |
| I2CEeprom.ReadCommandIsAddressPlusRead | dona1865-443-p7/IP_PKG_12-2013/Microchip/Common/I2Clib.c:206 | the read command is the write control byte plus one, carrying the same 7-bit address |
| I2CEeprom.ReadCommand | dona1865-443-p7/IP_PKG_12-2013/Microchip/Common/I2Clib.c:206 | the read command has the R/W bit set |
| I2CEeprom.FirstNak | dona1865-443-p7/IP_PKG_12-2013/Microchip/Common/I2Clib.c:136-149 | the index found is within the bytes and, when inside, is a NAK |
| I2CEeprom.FirstNakIsFirst | dona1865-443-p7/IP_PKG_12-2013/Microchip/Common/I2Clib.c:136-149 | no byte before the first NAK is NAKed |
| I2CEeprom.StickyStep | dona1865-443-p7/IP_PKG_12-2013/Microchip/Common/I2Clib.c:138-140 | one acknowledged write keeps the sticky flag consistent with the bytes sent |
| I2CEeprom.StickyExit | dona1865-443-p7/IP_PKG_12-2013/Microchip/Common/I2Clib.c:136-149 | after the loops, the flag is set iff some byte was NAKed and the count is the bytes up to and including the first NAK |
| I2CEeprom.WritesAt | dona1865-443-p7/IP_PKG_12-2013/Microchip/Common/I2Clib.c:139 | the k-th write operation writes the k-th byte |
| I2CEeprom.WriteWhileAcked | dona1865-443-p7/IP_PKG_12-2013/Microchip/Common/I2Clib.c:136-149 | writes stop at the first NAK and skip everything once the flag is set; the bytes written are the prefix sent |
| I2CEeprom.I2CWriteEEPROM | dona1865-443-p7/IP_PKG_12-2013/Microchip/Common/I2Clib.c:122-159 | the result is an error iff a header or data byte was NAKed; the bus sees START, the bytes up to and including the first NAK, STOP, then polling until ACK only when there was no error |
| I2CEeprom.ReadData | dona1865-443-p7/IP_PKG_12-2013/Microchip/Common/I2Clib.c:208-219 | max(len, 1) incoming bytes land in the buffer, the rest of it is untouched, and every byte but the last is ACKed, the last NACKed |
| I2CEeprom.ReadPhaseAcks | dona1865-443-p7/IP_PKG_12-2013/Microchip/Common/I2Clib.c:208-219 | in the read phase byte k is read and ACKed, except the last, which is NACKed |
| I2CEeprom.I2CReadEEPROM | dona1865-443-p7/IP_PKG_12-2013/Microchip/Common/I2Clib.c:176-224 | error iff a header byte was NAKed; on error the buffer is unchanged and the read phase is skipped; otherwise the buffer holds the data; STOP always ends the trace |
| I2CEeprom.FirstAckedProbe | dona1865-443-p7/IP_PKG_12-2013/Microchip/Common/I2Clib.c:245-257 | the first probe the device acknowledges |
| I2CEeprom.WaitI2CXfer | dona1865-443-p7/IP_PKG_12-2013/Microchip/Common/I2Clib.c:240-259 | returns the number of polling cycles up to and including the first ACK; every earlier one was NAKed; each cycle is a START, the address and a STOP |
| I2CClock.ClockConstants | dona1865-443-p7/IP_PKG_12-2013/Microchip/Common/I2Clib.h:18-21 | PBCLK is 10 MHz, Fsck is below the 400 kHz fast-mode limit, BRG_VAL is 14 |
| I2CClock.TruncationRaisesRate | dona1865-443-p7/IP_PKG_12-2013/Microchip/Common/I2Clib.h:21 | because BRG_VAL is truncated, the resulting bit rate is never below the requested one |
| I2CClock.ConfiguredRateWithinFastMode | dona1865-443-p7/IP_PKG_12-2013/Microchip/Common/I2Clib.h:20-21 | the configured rate is 357142 Hz: at least Fsck and still below 400 kHz |

## Left out

- Busy-wait loops on the operating mode (`dona1865-443-p6/FreeRTOS/Projects/CANFunctions_first_attempt.c:68-69`, `dona1865-443-p6/FreeRTOS/Projects/CANFunctions_first_attempt.c:228-229`) are modelled as completing at the first readback. A module that never reaches the mode is not modelled.
- The plib internals are not modelled, and neither is the bit-timing and prescaler computation inside `CANSetSpeed`. Only the arguments are recorded.
- The controller's automatic RTR reply, bus arbitration, error frames and the exact order of received messages across channels are not modelled.
- PlibCan.RxEntry: a data-only entry is modelled as a message with zero header fields and the data in place. The layout of a data-only FIFO entry, where the data start at the beginning of the buffer, is not modelled. So `data[0]` in the mainline reads the first data byte.
- PlibCan.CanModule.GetPendingEventCode: only receive-channel events are modelled, ordered by channel number. Other event codes are left out.
- `CAN2TxSendRTRMsg`, called from `CAN2RxMsgProcess` (`dona1865-443-p6/FreeRTOS/Projects/CANFunctions_first_attempt.c:419`), is not defined in this source. It is reported as the ghost result `replyRequested`.
- The LEDs written in the receive functions are one boolean indicator driven by byte 0 of the message. The pin registers and the toggling of the other LEDs are left out.
- The interrupt handler runs as one atomic step. Preemption of the mainline between its statements is not modelled. The `volatile` flags are fields of `CanReceive.RxHandoff`.
- CanDriver.CAN2TxSendIODataMsg: the source takes the eight bytes as eight `char*` arguments (`dona1865-443-p6/FreeRTOS/Projects/CANFunctions_first_attempt.c:478-479`). The model takes the byte values.
- `initI2C`/`OpenI2C1`, `i2c_wait`, `IdleI2C1`, `I2CReadByte` and `I2CWriteByte` touch only registers or are prototypes without a body here. The bus outcomes are parameters instead.
- I2CEeprom.WaitI2CXfer requires that the device acknowledges eventually. The source loops forever otherwise.
- I2CEeprom.I2CWriteEEPROM requires the same when no byte was NAKed, because it polls then.
- The FreeRTOS tasks, the board pin setup and every `main` are not part of this model.
- These members split the source's inline code into phases, each with its own contract:
  - SetTiming, Can1Channels, Can2Channels, SetFilter, EnableRxInterrupt, EnterMode, Can1Configure, Can2Configure;
  - ClearMessage, WriteRemoteRequest, WriteDataMessage, WriteData;
  - WriteWhileAcked, ReadData.

## Findings

| source | as written | input that shows it | evidently intended | confidence | as-written member | corrected member |
|---|---|---|---|---|---|---|
| dona1865-443-p6/FreeRTOS/Projects/CANFunctions_first_attempt.c:450 | `(WORD)` is applied before `& EID_MASK`, so the EID field keeps only the low 16 of its 18 bits (the same at `dona1865-443-p6/FreeRTOS/Projects/CANFunctions_first_attempt.c:495`) | identifier 0x30000: SID 0 and EID 0 are written, so the frame carries identifier 0 | EID is the low 18 bits, so SID and EID give back every 29-bit identifier | high for the arithmetic; the three identifiers the driver sends have bits 16–17 clear and are unaffected; not executed | CanIdent.AsWrittenLosesBits | CanIdent.SplitJoin |
| dona1865-443-p6/FreeRTOS/Projects/CANFunctions_first_attempt.c:542 | CAN1's interrupt handler waits for `CAN_CHANNEL1_EVENT`, and `CAN1RxMsgProcess` reads and re-arms channel 1 (`dona1865-443-p6/FreeRTOS/Projects/CANFunctions_first_attempt.c:343`, `dona1865-443-p6/FreeRTOS/Projects/CANFunctions_first_attempt.c:362-363`). But CAN1Init links filter 0 to channel 2 and enables the channel-2 event (`dona1865-443-p6/FreeRTOS/Projects/CANFunctions_first_attempt.c:166`, `dona1865-443-p6/FreeRTOS/Projects/CANFunctions_first_attempt.c:200`) | a CAN_EID_MSG_1 data frame arriving at CAN1 after CAN1Init: the flag is never set, the interrupt stays pending and the frame stays queued | handler and mainline use channel 2, the channel the filter fills | medium; not executed | CanLink.Can1ReceiveAsWritten | CanLink.Can1ReceiveOnChannel2 |
