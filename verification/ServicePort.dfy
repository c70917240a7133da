/** src/net/server.cpp: which service gets a connection's first packet, and what the checksum keeps out. */
module ServicePorts {
  import opened Wrappers
  import opened Words
  import opened Adler
  import opened Messages
  import opened Wire

  datatype Service = Service(protocolId: U8, hasChecksum: bool)

  predicate Accepts(s: Service, protocolId: U8, checksum: bool) {
    s.protocolId == protocolId && (checksum || !s.hasChecksum)
  }

  class ServicePort {
    var m_services: seq<Service>

    constructor (services: seq<Service>)
      ensures m_services == services
    {
      m_services := services;
    }

    // makeProtocol(): the first service that accepts, by its place in the list
    method MakeProtocol(checksum: bool, msg: NetworkMessage) returns (service: Option<nat>)
      requires msg.Valid() && msg.m_position <= CAPACITY
      modifies msg`m_position
      ensures msg.Valid() && msg.Value() == Got(old(msg.Value()), 1)
      ensures var id := ProtocolId(old(msg.Value()));
        && (service.None? <==> forall s :: s in m_services && s.protocolId == id ==> s.hasChecksum && !checksum)
        && (service.Some? ==>
              && service.value < |m_services| && m_services[service.value].protocolId == id
              && (m_services[service.value].hasChecksum ==> checksum)
              && forall i :: 0 <= i < service.value && m_services[i].protocolId == id ==>
                   m_services[i].hasChecksum && !checksum)
    {
      WordSizes();
      var protocolId := msg.GetValue(1, false);
      var it := 0;
      while it != |m_services|
        invariant 0 <= it <= |m_services|
        invariant forall i :: 0 <= i < it ==> !Accepts(m_services[i], protocolId, checksum)
      {
        if m_services[it].protocolId == protocolId
          && ((checksum && m_services[it].hasChecksum) || !m_services[it].hasChecksum) {
          assert m_services[it] in m_services && Accepts(m_services[it], protocolId, checksum);
          return Some(it);
        }
        it := it + 1;
      }
      return None;
    }

    // parsePacket() on a connection's first packet. Where a single-socket service has made the
    // protocol already, the checksum is no gate: the protocol id is skipped and the packet delivered.
    method FirstPacket(hasProtocol: bool, msg: NetworkMessage) returns (o: Outcome)
      requires msg.Valid() && Announces(msg.Value())
      modifies msg`m_position
      ensures msg.Valid()
      ensures o == ToExisting <==> hasProtocol
      ensures hasProtocol ==>
        msg.Value() == Checked(old(msg.Value())).(position := Checked(old(msg.Value())).position + 1)
      ensures !hasProtocol ==> msg.Value() == Got(Checked(old(msg.Value())), 1)
      ensures o == ToNobody <==> !hasProtocol && Dropped(m_services, old(msg.Value()))
      ensures o.ToNew? ==>
        var m := old(msg.Value());
        IsFirst(m_services, o.service, ProtocolId(Checked(m)), ChecksumMatches(m))
    {
      hide ChecksumMatches;
      var checksumEnabled := PacketReader.ParsePacket(msg);
      if hasProtocol {
        msg.Skip(1);
        return ToExisting;
      }
      var service := MakeProtocol(checksumEnabled, msg);
      if service == None {
        return ToNobody;
      }
      return ToNew(service.value);
    }
  }

  // Who gets a first packet
  datatype Outcome = ToNobody | ToExisting | ToNew(service: nat)

  // The n-th service is the first with that id that does not ask for a checksum that is missing.
  predicate IsFirst(services: seq<Service>, n: nat, id: U8, checksum: bool) {
    && n < |services| && services[n].protocolId == id && (services[n].hasChecksum ==> checksum)
    && forall i :: 0 <= i < n && services[i].protocolId == id ==> services[i].hasChecksum && !checksum
  }

  function ProtocolId(m: Message): U8
    requires m.position <= CAPACITY
  {
    WordSizes();
    Get(m, 1)
  }

  // A packet as parseHeader leaves it once its bytes are read
  predicate Announces(m: Message) { m.position == HEADER && 3 <= m.size < CAPACITY - 14 }

  predicate Dropped(services: seq<Service>, m: Message)
    requires Announces(m)
  {
    forall s :: s in services ==> !Accepts(s, ProtocolId(Checked(m)), ChecksumMatches(m))
  }

  function Payload(m: Message): seq<U8>
    requires Announces(m) && m.size >= 6
  {
    m.buffer[6..m.size]
  }

  predicate OneByteChanged(p: seq<U8>, q: seq<U8>, i: nat, v: U8) {
    i < |p| && v != p[i] && q == p[i := v]
  }

  predicate TwoBytesSwapped(p: seq<U8>, q: seq<U8>, i: nat, j: nat) {
    i < j < |p| && p[i] != p[j] && q == Swapped(p, i, j)
  }

  ghost predicate Damaged(p: seq<U8>, q: seq<U8>) {
    (exists i, v :: OneByteChanged(p, q, i, v)) || (exists i, j :: TwoBytesSwapped(p, q, i, j))
  }

  // The same packet with its payload damaged
  ghost predicate DamagedPacket(m: Message, t: Message)
    requires Announces(m) && m.size >= 6
  {
    && t.position == m.position && t.size == m.size && t.buffer[..6] == m.buffer[..6]
    && Damaged(Payload(m), Payload(t))
  }

  lemma ChecksumLine(m: Message)
    requires Announces(m) && m.size > 6
    ensures ChecksumMatches(m) <==> Get(m, 4) == Checksum(Payload(m))
  {
    hide Checksum, Get;
  }

  lemma SameReceived(m: Message, t: Message)
    requires m.position == HEADER && t.position == HEADER && t.buffer[..6] == m.buffer[..6]
    ensures Get(t, 4) == Get(m, 4)
  {
    assert t.buffer[2..6] == t.buffer[..6][2..] && m.buffer[2..6] == m.buffer[..6][2..];
  }

  lemma DamageDetected(p: seq<U8>, q: seq<U8>)
    requires |p| <= MAX_SIZE && Damaged(p, q)
    ensures Checksum(q) != Checksum(p)
  {
    hide Checksum;
    if i, v :| OneByteChanged(p, q, i, v) {
      OneByteDetected(p, i, v);
    } else {
      var i, j :| TwoBytesSwapped(p, q, i, j);
      SwapDetected(p, i, j);
    }
  }

  // A packet whose checksum is right reaches the first service with its id, whether that asks for
  // checksums or not; it is dropped only where no service bears the id.
  lemma GoodPacketArrives(m: Message, services: seq<Service>, n: nat)
    requires Announces(m) && ChecksumMatches(m)
    ensures ProtocolId(Checked(m)) == m.buffer[6]
    ensures Dropped(services, m) <==> forall s :: s in services ==> s.protocolId != ProtocolId(Checked(m))
    ensures IsFirst(services, n, ProtocolId(Checked(m)), true) <==>
      && n < |services| && services[n].protocolId == ProtocolId(Checked(m))
      && forall i :: 0 <= i < n ==> services[i].protocolId != ProtocolId(Checked(m))
  {
    hide ChecksumMatches;
  }

  // A packet whose checksum was right, after one byte of its payload has changed or two unequal
  // ones have changed places: the checksum does not match, and the packet reaches a protocol if and
  // only if a service without checksums bears the id that stands where the checksum is.
  lemma DamageIsSeen(m: Message, t: Message, services: seq<Service>)
    requires Announces(m) && m.size > 6 && ChecksumMatches(m) && DamagedPacket(m, t)
    ensures !ChecksumMatches(t)
    ensures Dropped(services, t) <==> forall s :: s in services && !s.hasChecksum ==> s.protocolId != ProtocolId(t)
    ensures (forall s :: s in services ==> s.hasChecksum) ==> Dropped(services, t)
  {
    hide Checksum, Get, ChecksumMatches, ProtocolId, Damaged;
    ChecksumLine(m);
    ChecksumLine(t);
    SameReceived(m, t);
    DamageDetected(Payload(m), Payload(t));
  }
}
