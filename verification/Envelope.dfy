/** The dnstap envelope: built fresh, and built in a reused scratch object. */
module Envelope {
  import opened Basics

  const MAPPED: seq<byte> := [0, 0, 0, 0, 0, 0, 0, 0, 0, 0, 0xff, 0xff]
  const ZEROS: seq<byte> := [0, 0, 0, 0, 0, 0, 0, 0, 0, 0, 0, 0, 0, 0, 0, 0]

  type addr4 = b: seq<byte> | |b| == 4 witness [0, 0, 0, 0]
  type addr16 = b: seq<byte> | |b| == 16 witness [0, 0, 0, 0, 0, 0, 0, 0, 0, 0, 0, 0, 0, 0, 0, 0]

  /** `netip.Addr`; `Unset` is the zero value. */
  datatype Ip = Unset | V4(v4: addr4) | V6(v6: addr16) {
    predicate Is4In6() {
      V6? && v6[..12] == MAPPED
    }

    function As16(): addr16 {
      match this
      case Unset => ZEROS
      case V4(b) => MAPPED + b
      case V6(b) => b
    }

    /** `None` where `As4` panics. */
    function As4(): Option<addr4> {
      match this
      case Unset => None
      case V4(b) => Some(b)
      case V6(b) => if Is4In6() then Some(b[12..]) else None
    }
  }

  datatype Time = Time(sec: int, nsec: nat)
  datatype Family = Inet | Inet6
  datatype Protocol = Udp | Tcp
  datatype DtType = DtUnset | DtMessage
  datatype MsgType = MsgUnset | ClientResponse

  datatype Query = Query(src: Ip, dst: Ip, srcPort: nat, dstPort: nat, at: Option<Time>, dns: seq<byte>)

  /** What `proto.Marshal` reads. */
  datatype Dnstap = Dnstap(identity: string, dtType: DtType, msgType: MsgType, family: Family, protocol: Protocol,
                           queryAddress: seq<byte>, responseAddress: seq<byte>,
                           queryPort: nat, responsePort: nat, sec: nat, nsec: nat, message: seq<byte>)

  const IDENTITY := "edm-loadgen"

  const TWO64: nat := 0x1_0000_0000_0000_0000

  function OrDefault(port: nat, default: nat): nat {
    if port == 0 then default else port
  }

  function AddressFamily(src: Ip): Family {
    if src.V6? && !src.Is4In6() then Inet6 else Inet
  }

  /** `familyAwareProtocol` of an IANA protocol number. */
  function ProtocolOf(n: nat): Protocol {
    if n == 6 then Tcp else Udp
  }

  /** `uint64(at.Unix())`. */
  function Seconds(at: Time): nat {
    at.sec % TWO64
  }

  function Assemble(q: Query, at: Time, fam: Family, src: seq<byte>, dst: seq<byte>): Dnstap {
    Dnstap(IDENTITY, DtMessage, ClientResponse, fam, ProtocolOf(17), src, dst,
           OrDefault(q.srcPort, 12345), OrDefault(q.dstPort, 53), Seconds(at), at.nsec, q.dns)
  }

  /** The query's own time, or the clock. */
  function AtOr(q: Query, now: Time): Time {
    if q.at.Some? then q.at.value else now
  }

  /** The envelope built from scratch at clock value `now`; `None` where an address does not convert. */
  function NewClientResponse(q: Query, now: Time): Option<Dnstap> {
    var at := AtOr(q, now);
    var fam := AddressFamily(q.src);
    if fam == Inet6 then
      Some(Assemble(q, at, fam, q.src.As16(), q.dst.As16()))
    else if q.src.As4().Some? && q.dst.As4().Some? then
      Some(Assemble(q, at, fam, q.src.As4().value, q.dst.As4().value))
    else None
  }

  lemma EnvelopeOf(q: Query, now: Time, src: seq<byte>, dst: seq<byte>)
    requires AddressFamily(q.src) == Inet6 ==> src == q.src.As16() && dst == q.dst.As16()
    requires AddressFamily(q.src) == Inet ==> q.src.As4() == Some(src) && q.dst.As4() == Some(dst)
    ensures NewClientResponse(q, now) == Some(Assemble(q, AtOr(q, now), AddressFamily(q.src), src, dst))
  {}

  /** `dnstap.Message`: the scalar fields refer to the builder's own cells, the addresses at its arrays. */
  class ClientResponseBuilder {
    var identity: string
    var dtType: DtType
    var msgType: MsgType
    var family: Family
    var protocol: Protocol
    const src4: array<byte>
    const dst4: array<byte>
    const src16: array<byte>
    const dst16: array<byte>
    var srcPort: nat
    var dstPort: nat
    var respSec: nat
    var respNsec: nat

    var queryAddress: array<byte>
    var responseAddress: array<byte>
    var responseMessage: seq<byte>

    ghost predicate Valid()
      reads this
    {
      && src4.Length == dst4.Length == 4 && src16.Length == dst16.Length == 16
      && src4 != dst4 && src16 != dst16
    }

    /** The envelope as the marshaller sees it, through the references. */
    ghost function View(): Dnstap
      reads this, queryAddress, responseAddress
    {
      Dnstap(identity, dtType, msgType, family, protocol, queryAddress[..], responseAddress[..],
             srcPort, dstPort, respSec, respNsec, responseMessage)
    }

    constructor ()
      ensures Valid() && fresh(src4) && fresh(dst4) && fresh(src16) && fresh(dst16)
    {
      identity := "";
      dtType, msgType, family, protocol := DtUnset, MsgUnset, Inet, Udp;
      var s4, d4, s16, d16 := new byte[4], new byte[4], new byte[16], new byte[16];
      src4, dst4, src16, dst16 := s4, d4, s16, d16;
      srcPort, dstPort, respSec, respNsec := 0, 0, 0, 0;
      queryAddress, responseAddress := s4, d4;
      responseMessage := [];
    }

    /** Copying an address value into one of the builder's arrays. */
    static method Fill(a: array<byte>, b: seq<byte>)
      requires a.Length == |b|
      modifies a
      ensures a[..] == b
    {
      forall i | 0 <= i < |b| {
        a[i] := b[i];
      }
    }

    /** The branch of `prepare` on the socket family; false where `As4` panics. */
    method SetAddresses(src: Ip, dst: Ip) returns (ok: bool)
      requires Valid()
      modifies this`queryAddress, this`responseAddress, src4, dst4, src16, dst16
      ensures ok <==> family == Inet6 || (src.As4().Some? && dst.As4().Some?)
      ensures ok && family == Inet6 ==> queryAddress[..] == src.As16() && responseAddress[..] == dst.As16()
      ensures ok && family == Inet ==> queryAddress[..] == src.As4().value && responseAddress[..] == dst.As4().value
    {
      if family == Inet6 {
        Fill(src16, src.As16());
        Fill(dst16, dst.As16());
        queryAddress, responseAddress := src16, dst16;
      } else {
        var s, d := src.As4(), dst.As4();
        if s.None? || d.None? {
          return false;
        }
        Fill(src4, s.value);
        Fill(dst4, d.value);
        queryAddress, responseAddress := src4, dst4;
      }
      ok := true;
    }

    /** The first part of `prepare`: every scalar cell. */
    method SetScalars(q: Query, now: Time)
      modifies this`dtType, this`msgType, this`family, this`protocol, this`srcPort, this`dstPort, this`respSec, this`respNsec
      ensures dtType == DtMessage && msgType == ClientResponse && protocol == ProtocolOf(17)
      ensures family == AddressFamily(q.src)
      ensures srcPort == OrDefault(q.srcPort, 12345) && dstPort == OrDefault(q.dstPort, 53)
      ensures respSec == Seconds(AtOr(q, now)) && respNsec == AtOr(q, now).nsec
    {
      var at := now;
      if q.at.Some? {
        at := q.at.value;
      }
      dtType := DtMessage;
      msgType := ClientResponse;
      family := Inet;
      if q.src.V6? && !q.src.Is4In6() {
        family := Inet6;
      }
      protocol := Udp;
      srcPort := q.srcPort;
      if srcPort == 0 {
        srcPort := 12345;
      }
      dstPort := q.dstPort;
      if dstPort == 0 {
        dstPort := 53;
      }
      respSec := Seconds(at);
      respNsec := at.nsec;
    }

    /** Whatever the builder was used for before, it ends up holding the fresh envelope. */
    method Prepare(q: Query, now: Time) returns (ok: bool)
      requires Valid()
      modifies this, src4, dst4, src16, dst16
      ensures Valid()
      ensures ok <==> NewClientResponse(q, now).Some?
      ensures ok ==> View() == NewClientResponse(q, now).value
    {
      SetScalars(q, now);
      ok := SetAddresses(q.src, q.dst);
      responseMessage := q.dns;
      identity := IDENTITY;
      if ok {
        EnvelopeOf(q, now, queryAddress[..], responseAddress[..]);
      }
    }
  }

  // -------------------------------------------------- field by field, in plain terms

  /** The client of the query and the resolver that answers, each where the format wants it. */
  lemma AddressesInPlace(q: Query, now: Time)
    ensures var r := NewClientResponse(q, now);
            && (q.src.V4? && q.dst.V4? ==>
                  r.Some? && r.value.queryAddress == q.src.v4 && r.value.responseAddress == q.dst.v4)
            && (q.src.V6? && q.src.v6[..12] != [0, 0, 0, 0, 0, 0, 0, 0, 0, 0, 255, 255] ==>
                  && r.Some? && r.value.queryAddress == q.src.v6
                  && (q.dst.V6? ==> r.value.responseAddress == q.dst.v6)
                  && (q.dst.V4? ==> r.value.responseAddress == [0, 0, 0, 0, 0, 0, 0, 0, 0, 0, 255, 255] + q.dst.v4)
                  && (q.dst.Unset? ==> r.value.responseAddress == seq(16, _ => 0)))
            && (q.src.V6? && q.src.v6[..12] == [0, 0, 0, 0, 0, 0, 0, 0, 0, 0, 255, 255] && r.Some? ==>
                  r.value.queryAddress == q.src.v6[12..])
            && (r.Some? && r.value.family == Inet && q.dst.V6? ==> r.value.responseAddress == q.dst.v6[12..])
            && (r.Some? && r.value.family == Inet && q.dst.V4? ==> r.value.responseAddress == q.dst.v4)
            && (r.Some? ==> (r.value.family == Inet6 <==>
                               q.src.V6? && q.src.v6[..12] != [0, 0, 0, 0, 0, 0, 0, 0, 0, 0, 255, 255]))
  {
    assert ZEROS == seq(16, _ => 0);
  }

  /** A zero port is replaced by its default, and only a zero port. */
  lemma PortsInPlace(q: Query, now: Time)
    requires NewClientResponse(q, now).Some?
    ensures var e := NewClientResponse(q, now).value;
            && (q.srcPort == 0 ==> e.queryPort == 12345) && (q.srcPort != 0 ==> e.queryPort == q.srcPort)
            && (q.dstPort == 0 ==> e.responsePort == 53) && (q.dstPort != 0 ==> e.responsePort == q.dstPort)
  {}

  /** The 64-bit pattern of a signed number of seconds. */
  predicate SecondsOf(sec: nat, unix: int) {
    sec == if unix >= 0 then unix else unix + 0x1_0000_0000_0000_0000
  }

  /** The time is the query's own when it has one and the clock's otherwise. */
  lemma TimeInPlace(q: Query, now: Time)
    requires NewClientResponse(q, now).Some?
    requires -0x8000_0000_0000_0000 <= now.sec < 0x8000_0000_0000_0000
    requires q.at.Some? ==> -0x8000_0000_0000_0000 <= q.at.value.sec < 0x8000_0000_0000_0000
    ensures var e := NewClientResponse(q, now).value;
            && (q.at.Some? ==> SecondsOf(e.sec, q.at.value.sec) && e.nsec == q.at.value.nsec)
            && (q.at.None? ==> SecondsOf(e.sec, now.sec) && e.nsec == now.nsec)
  {}

  /** Every envelope is a client response over UDP from this program, with the query's payload. */
  lemma KindInPlace(q: Query, now: Time)
    requires NewClientResponse(q, now).Some?
    ensures var e := NewClientResponse(q, now).value;
            && e.identity == "edm-loadgen" && e.dtType == DtMessage && e.msgType == ClientResponse
            && e.protocol == Udp && e.message == q.dns
  {}

  /** Where the two builders panic: an IPv4-family query with an address that is not IPv4. */
  lemma EnvelopeExists(q: Query, now: Time)
    ensures NewClientResponse(q, now) == None <==>
            !(q.src.V6? && !q.src.Is4In6()) && (q.src.Unset? || q.dst.Unset? || (q.dst.V6? && !q.dst.Is4In6()))
  {}

  /**
    An envelope determines the payload and the 16-byte form of the client and resolver addresses; an IPv4
    address and its mapped IPv6 form are not told apart.
   */
  lemma EnvelopeKeepsAddresses(q1: Query, q2: Query, now: Time)
    requires NewClientResponse(q1, now).Some? && NewClientResponse(q1, now) == NewClientResponse(q2, now)
    ensures q1.src.As16() == q2.src.As16() && q1.dst.As16() == q2.dst.As16() && q1.dns == q2.dns
  {
    var e1, e2 := NewClientResponse(q1, now).value, NewClientResponse(q2, now).value;
    assert e1.queryAddress == e2.queryAddress && e1.responseAddress == e2.responseAddress;
    if e1.family == Inet {
      As16OfAs4(q1.src); As16OfAs4(q2.src); As16OfAs4(q1.dst); As16OfAs4(q2.dst);
    }
  }

  lemma As16OfAs4(ip: Ip)
    requires ip.As4().Some?
    ensures ip.As16() == MAPPED + ip.As4().value
  {
    if ip.V6? {
      assert ip.v6 == ip.v6[..12] + ip.v6[12..];
    }
  }
}
