/** Identifier constants, masks and FIFO sizing of the CAN link driver
    (CANFunctions_first_attempt.h). Identifiers are 32-bit registers,
    so they are bv32 values here. */
module CanConstants {

  /** Bus bit rate the controllers are configured for. */
  const CAN_BUS_SPEED: nat := 250000

  /** System clock handed to the bit-timing computation (GetSystemClock()). */
  const SYSTEM_CLOCK: nat := 80000000

  // FIFO message areas: channels x buffers per channel x bytes per buffer.
  const CAN1_CHANNELS: nat := 3
  const CAN1_FIFO_BUFFERS: nat := 8
  const CAN1_MSG_BUFF_SIZE: nat := 16
  const CAN1_MSG_MEMORY: nat := CAN1_CHANNELS * CAN1_FIFO_BUFFERS * CAN1_MSG_BUFF_SIZE

  const CAN2_CHANNELS: nat := 2
  const CAN2_FIFO_BUFFERS: nat := 8
  const CAN2_MSG_BUFF_SIZE: nat := 16
  const CAN2_MSG_MEMORY: nat := CAN2_CHANNELS * CAN2_FIFO_BUFFERS * CAN2_MSG_BUFF_SIZE

  /** A message buffer holds four 32-bit message words. */
  const MESSAGE_WORDS: nat := 4

  const SID_MASK: bv32 := 0x07FF
  const EID_MASK: bv32 := 0x03FFFF
  const SID_FILTER_MASK: bv32 := 0x07FF
  const EID_FILTER_MASK: bv32 := 0x1FFFFFFF

  const CAN_EID_MSG_1: bv32 := 0x08004001
  const CAN_EID_MSG_2: bv32 := 0x08004002
  const CAN_EID_MSG_4: bv32 := 0x08004004
  const CAN2_MSG_ID: bv32 := 0x08004004

  /** Number of bits of an extended (29-bit) identifier. */
  const EXTENDED_ID_LIMIT: bv32 := 0x20000000

  /** Each message area holds exactly channels x buffers message buffers of
      four 32-bit words each. */
  lemma MessageMemorySizes()
    ensures CAN1_MSG_MEMORY == 384 && CAN2_MSG_MEMORY == 256
    ensures CAN1_MSG_BUFF_SIZE == MESSAGE_WORDS * 4 && CAN2_MSG_BUFF_SIZE == MESSAGE_WORDS * 4
    ensures CAN1_MSG_MEMORY == CAN1_CHANNELS * CAN1_FIFO_BUFFERS * (MESSAGE_WORDS * 4)
    ensures CAN2_MSG_MEMORY == CAN2_CHANNELS * CAN2_FIFO_BUFFERS * (MESSAGE_WORDS * 4)
  {
  }

  /** The 11-bit SID mask shifted into place and the 18-bit EID mask cover
      the 29-bit filter mask exactly, without overlap. */
  lemma MasksCoverExtendedId()
    ensures (SID_MASK << 18) | EID_MASK == EID_FILTER_MASK
    ensures (SID_MASK << 18) & EID_MASK == 0
    ensures EID_FILTER_MASK == EXTENDED_ID_LIMIT - 1
    ensures SID_FILTER_MASK == SID_MASK
  {
  }

  /** The three message identifiers are distinct 29-bit identifiers whose
      bits 16 and 17 are clear. */
  lemma MessageIdsWellFormed()
    ensures CAN_EID_MSG_1 != CAN_EID_MSG_2 && CAN_EID_MSG_1 != CAN_EID_MSG_4 && CAN_EID_MSG_2 != CAN_EID_MSG_4
    ensures CAN_EID_MSG_1 < EXTENDED_ID_LIMIT && CAN_EID_MSG_2 < EXTENDED_ID_LIMIT && CAN_EID_MSG_4 < EXTENDED_ID_LIMIT
    ensures CAN_EID_MSG_1 & 0x30000 == 0 && CAN_EID_MSG_2 & 0x30000 == 0 && CAN_EID_MSG_4 & 0x30000 == 0
    ensures CAN2_MSG_ID == CAN_EID_MSG_4
  {
  }
}
