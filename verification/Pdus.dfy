/** The MIC-TCP PDU: header fields, payload, and the wildcard matching that every
    handler uses to recognise what it received. */
module Pdus {

  datatype Option<+T> = None | Some(value: T)

  const MOD32: int := 0x1_0000_0000

  type U32 = n: int | 0 <= n < 0x1_0000_0000
  type U8 = n: int | 0 <= n < 256

  /** Application bytes. */
  type Payload = seq<char>

  /** Ports are not modelled: no handler ever looks at them. */
  datatype Pdu = Pdu(syn: U8, ack: U8, fin: U8, seqNum: U32, ackNum: U32, payload: Payload)

  /** `unsigned int` increment. */
  function Next(n: U32): U32 {
    if n == MOD32 - 1 then 0 else n + 1
  }

  function CreateNoPayloadPdu(syn: U8, ack: U8, fin: U8, seqNum: U32, ackNum: U32): Pdu {
    Pdu(syn, ack, fin, seqNum, ackNum, [])
  }

  /** Flags must be equal; a zero `seqNum` or `ackNum` matches any number, and the
      acknowledgment number is looked at only when the ACK flag is expected. */
  predicate VerifyPdu(p: Pdu, syn: U8, ack: U8, fin: U8, seqNum: U32, ackNum: U32) {
    && p.syn == syn
    && !(p.ack != ack || (ack == 1 && p.ackNum != ackNum && ackNum != 0))
    && p.fin == fin
    && !(seqNum != 0 && seqNum != p.seqNum)
  }

  predicate IsSyn(p: Pdu) { VerifyPdu(p, 1, 0, 0, 0, 0) }
  predicate IsSynAck(p: Pdu) { VerifyPdu(p, 1, 1, 0, 0, 0) }
  predicate IsAck(p: Pdu) { VerifyPdu(p, 0, 1, 0, 0, 0) }
  predicate IsFin(p: Pdu) { VerifyPdu(p, 0, 0, 1, 0, 0) }
  predicate IsFinAck(p: Pdu) { VerifyPdu(p, 0, 1, 1, 0, 0) }
  predicate IsData(p: Pdu) { VerifyPdu(p, 0, 0, 0, 0, 0) }

  const MEASURING_PAYLOAD: Payload := "mesure"

  /** The C string at the start of a payload: everything before the first NUL. The reception buffer is
      taken to hold a NUL right after the payload. */
  function CString(s: Payload): (text: Payload)
    ensures text <= s && '\0' !in text
    ensures |text| < |s| ==> s[|text|] == '\0'
    ensures '\0' !in s ==> text == s
  {
    if s == [] || s[0] == '\0' then [] else [s[0]] + CString(s[1..])
  }

  lemma CStringIs(s: Payload, text: Payload)
    requires '\0' !in text
    ensures CString(s) == text <==> text <= s && (|text| == |s| || s[|text|] == '\0')
  {
    var r := CString(s);
    if text <= s && |r| < |text| {
      NotNul(s, text, |r|);
    } else if text <= s && |text| < |r| {
      NotNul(s, r, |text|);
    }
  }

  lemma NotNul(s: Payload, text: Payload, i: nat)
    requires text <= s && '\0' !in text && i < |text|
    ensures s[i] != '\0'
  {
    assert s[i] == text[i] && text[i] in text;
  }

  /** strcmp with the measurement string. */
  predicate IsMeasure(payload: Payload): (measure: bool)
    ensures measure <==> CString(payload) == "mesure"
  {
    CStringIs(payload, MEASURING_PAYLOAD);
    MEASURING_PAYLOAD <= payload && (|payload| == |MEASURING_PAYLOAD| || payload[|MEASURING_PAYLOAD|] == '\0')
  }

  /** An application message that the server does not take for a measurement packet. */
  predicate IsText(msg: Payload) { CString(msg) != "mesure" }

  const SYN: Pdu := CreateNoPayloadPdu(1, 0, 0, 0, 0)
  const SYN_ACK: Pdu := CreateNoPayloadPdu(1, 1, 0, 0, 0)
  const FIN: Pdu := CreateNoPayloadPdu(0, 0, 1, 0, 0)
  const FIN_ACK: Pdu := CreateNoPayloadPdu(0, 1, 1, 0, 0)
  const MEASUREMENT: Pdu := CreateNoPayloadPdu(0, 0, 0, 0, 0).(payload := MEASURING_PAYLOAD)

  function Ack(n: U32): Pdu { CreateNoPayloadPdu(0, 1, 0, 0, n) }

  function Data(seqNum: U32, msg: Payload): Pdu {
    CreateNoPayloadPdu(0, 0, 0, seqNum, 0).(payload := msg)
  }

  /** What IP_send hands to the network: nothing when it returns -1. */
  function Transmit(ipOk: bool, p: Pdu): Option<Pdu> {
    if ipOk then Some(p) else None
  }

  /** What is built is what is recognised: a PDU verifies exactly against its own flags, and against
      its own numbers or the wildcard 0; the acknowledgment number counts only beside the ACK flag. */
  lemma BuiltVerifies(p: Pdu, syn: U8, ack: U8, fin: U8, seqNum: U32, ackNum: U32, msg: Payload)
    requires p == CreateNoPayloadPdu(syn, ack, fin, seqNum, ackNum).(payload := msg)
    ensures p.payload == msg
    ensures forall s: U8, a: U8, f: U8, n: U32, m: U32 :: VerifyPdu(p, s, a, f, n, m) <==>
              && (s, a, f) == (syn, ack, fin) && (n == 0 || n == seqNum)
              && (a == 1 && m != 0 ==> m == ackNum)
  {
  }

  /** The PDUs of the protocol, each of its own kind and of no other. */
  lemma KindsOfPdus(n: U32, msg: Payload)
    ensures IsSyn(SYN) && IsSynAck(SYN_ACK) && IsAck(Ack(n)) && IsFin(FIN) && IsFinAck(FIN_ACK)
    ensures IsData(MEASUREMENT) && MEASUREMENT.payload == "mesure" && MEASUREMENT.seqNum == 0
    ensures IsData(Data(n, msg)) && Data(n, msg).payload == msg && Data(n, msg).seqNum == n
    ensures Ack(n).ackNum == n
    ensures forall p: Pdu ::
              && (IsSyn(p) <==> (p.syn, p.ack, p.fin) == (1, 0, 0))
              && (IsSynAck(p) <==> (p.syn, p.ack, p.fin) == (1, 1, 0))
              && (IsAck(p) <==> (p.syn, p.ack, p.fin) == (0, 1, 0))
              && (IsFin(p) <==> (p.syn, p.ack, p.fin) == (0, 0, 1))
              && (IsFinAck(p) <==> (p.syn, p.ack, p.fin) == (0, 1, 1))
              && (IsData(p) <==> (p.syn, p.ack, p.fin) == (0, 0, 0))
  {
  }

  lemma MeasurementIsNoText()
    ensures !IsText(MEASUREMENT.payload)
  {
    assert '\0' !in MEASURING_PAYLOAD;
  }
}
