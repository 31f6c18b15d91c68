/**
 * Human-readable record numbers: an order number "ORD-" + 12 hex digits
 * (orders/models.py), a refund request number "REF" + 8 and a refund number
 * "RFD" + 8 (refunds/models.py), each cut from an upper-cased uuid4 hex string and
 * assigned by `save` only while the field is still empty.
 */
module Serials {
  import opened Text

  /** A number of the given prefix followed by `width` upper-case hexadecimal digits. */
  predicate IsSerial(s: string, prefix: string, width: nat) {
    |s| == |prefix| + width && s[..|prefix|] == prefix
    && forall k :: |prefix| <= k < |s| ==> IsUpperHexDigit(s[k])
  }

  function Serial(prefix: string, hex: string, width: nat): (r: string)
    requires IsUuidHex(hex) && width <= 32
    ensures IsSerial(r, prefix, width)
  {
    UpperHex(hex[..width]);
    prefix + Upper(hex[..width])
  }

  /** `f"ORD-{uuid.uuid4().hex[:12].upper()}"` */
  function OrderNumber(hex: string): (r: string)
    requires IsUuidHex(hex)
    ensures IsSerial(r, "ORD-", 12) && |r| == 16
  {
    Serial("ORD-", hex, 12)
  }

  /** `f"REF{uuid.uuid4().hex[:8].upper()}"` */
  function RequestNumber(hex: string): (r: string)
    requires IsUuidHex(hex)
    ensures IsSerial(r, "REF", 8) && |r| == 11
  {
    Serial("REF", hex, 8)
  }

  /** `f"RFD{uuid.uuid4().hex[:8].upper()}"` */
  function RefundNumber(hex: string): (r: string)
    requires IsUuidHex(hex)
    ensures IsSerial(r, "RFD", 8) && |r| == 11
  {
    Serial("RFD", hex, 8)
  }

  /** The `if not self.number: self.number = generate()` step of `save`. */
  function AssignOnce(current: string, generated: string): (r: string)
    ensures current != "" ==> r == current
    ensures current == "" ==> r == generated
    ensures generated != "" ==> r != ""
  {
    if current == "" then generated else current
  }

  /**
   * Saving a second time, with whatever fresh number the generator offers then,
   * keeps the number the first save assigned.
   */
  lemma SaveAgainKeepsNumber(current: string, first: string, second: string)
    requires first != ""
    ensures AssignOnce(AssignOnce(current, first), second) == AssignOnce(current, first)
  {
  }
}
