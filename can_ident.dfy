/** Splitting a 29-bit extended identifier into the 11-bit base identifier
    (SID) and the 18-bit identifier extension (EID), as section 3.1.1 of the
    CAN Specification 2.0 Part B lays them out, and filter acceptance. */
module CanIdent {
  import opened CanConstants

  /** The C cast (WORD): truncation to 16 bits. */
  function Word(x: bv32): (r: bv32)
    ensures r < 0x10000
    ensures r == x % 0x10000
  {
    x & 0xFFFF
  }

  /** SID as the driver computes it: (WORD) (id >> 18) & SID_MASK. */
  function SidOf(id: bv32): (sid: bv32)
    ensures sid <= SID_MASK
    ensures id < EXTENDED_ID_LIMIT ==> sid == id / 0x40000
  {
    Word(id >> 18) & SID_MASK
  }

  /** EID as the driver writes it: (WORD) id & EID_MASK. The cast binds
      before the mask, so bits 16 and 17 of the identifier are lost. */
  function EidField(id: bv32): (eid: bv32)
    ensures eid < 0x10000
    ensures eid == id % 0x10000
  {
    Word(id) & EID_MASK
  }

  /** EID as the identifier layout intends it: the low 18 bits. */
  function EidOf(id: bv32): (eid: bv32)
    ensures eid <= EID_MASK
    ensures eid == id % 0x40000
  {
    id & EID_MASK
  }

  /** The 29-bit identifier a frame with these SID and EID fields carries. */
  function Join(sid: bv32, eid: bv32): (id: bv32)
    ensures id < EXTENDED_ID_LIMIT
    ensures id / 0x40000 == sid & SID_MASK && id % 0x40000 == eid & EID_MASK
  {
    ((sid & SID_MASK) << 18) | (eid & EID_MASK)
  }

  /** SID and intended EID together give back every 29-bit identifier. */
  lemma SplitJoin(id: bv32)
    requires id < EXTENDED_ID_LIMIT
    ensures Join(SidOf(id), EidOf(id)) == id
  {
  }

  /** With the (WORD) cast the round trip holds exactly for identifiers
      whose bits 16 and 17 are clear. */
  lemma AsWrittenSplitJoin(id: bv32)
    requires id < EXTENDED_ID_LIMIT
    ensures Join(SidOf(id), EidField(id)) == id <==> id & 0x30000 == 0
  {
  }

  /** An identifier that shows the loss: 0x30000 comes back as 0. */
  lemma AsWrittenLosesBits()
    ensures Join(SidOf(0x30000), EidField(0x30000)) == 0
    ensures Join(SidOf(0x30000), EidOf(0x30000)) == 0x30000
  {
  }

  /** For the identifiers the driver sends, the cast makes no difference. */
  lemma DriverIdsUnaffected()
    ensures EidField(CAN_EID_MSG_1) == EidOf(CAN_EID_MSG_1)
    ensures EidField(CAN_EID_MSG_2) == EidOf(CAN_EID_MSG_2)
    ensures EidField(CAN_EID_MSG_4) == EidOf(CAN_EID_MSG_4)
  {
  }

  /** Acceptance filtering: the identifier matches the filter on every bit
      the mask selects. */
  predicate Accepts(filterId: bv32, mask: bv32, id: bv32)
  {
    id & mask == filterId & mask
  }

  /** A filter masked with EID_FILTER_MASK accepts exactly its own 29-bit
      identifier. */
  lemma FullMaskAcceptsExactly(filterId: bv32, id: bv32)
    requires filterId < EXTENDED_ID_LIMIT && id < EXTENDED_ID_LIMIT
    ensures Accepts(filterId, EID_FILTER_MASK, id) <==> id == filterId
  {
    BelowLimitIsMasked(filterId);
    BelowLimitIsMasked(id);
    assert Accepts(filterId, EID_FILTER_MASK, id) <==> id & EID_FILTER_MASK == filterId & EID_FILTER_MASK;
  }

  /** A 29-bit identifier is unchanged by the 29-bit mask. */
  lemma BelowLimitIsMasked(id: bv32)
    requires id < EXTENDED_ID_LIMIT
    ensures id & EID_FILTER_MASK == id
  {
  }
}
