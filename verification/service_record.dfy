/**
 * The platform's record of one discovered service (Android's
 * `NsdServiceInfo`) and the tagged event map built from it for the
 * consumer of the event stream.
 */
module ServiceRecord {
  import opened Options
  import ServiceType

  /** A Java `byte`, the element type of a TXT attribute value (a key may have no value). */
  newtype Byte = b: int | -128 <= b < 128

  /** The resolved host of a record (`InetAddress`); either part may be null. */
  datatype Host = Host(hostName: Option<string>, hostAddress: Option<string>)

  /**
   * One service record. `host` is null until the service has been resolved;
   * `name` is nullable as the platform hands it over.
   */
  datatype Info = Info(
    name: Option<string>,
    serviceType: string,
    host: Option<Host>,
    port: int,
    attributes: map<string, Option<seq<Byte>>>)

  /** A value stored in an event map. */
  datatype Value =
    | Null
    | Str(s: string)
    | Int(i: int)
    | Txt(attrs: map<string, Option<seq<Byte>>>)
    | List(items: seq<Value>)

  /** One event delivered to the consumer: a map from field names to values. */
  type Event = map<string, Value>

  const MethodKey: string := "method"
  const NameKey: string := "name"
  const TypeKey: string := "type"
  const HostNameKey: string := "hostName"
  const PortKey: string := "port"
  const TxtKey: string := "txt"
  const AddrKey: string := "addr"

  /** The fields every event about a record carries. */
  const RecordKeys: set<string> := {MethodKey, NameKey, TypeKey, HostNameKey, PortKey, TxtKey}

  /** The host name of a record, `""` when the host or its name is unknown. */
  function HostNameOrEmpty(info: Info): string
  {
    match info.host
    case None => ""
    case Some(h) => h.hostName.OrElse("")
  }

  /** The host address of a record, when one is known. */
  function HostAddress(info: Info): Option<string>
  {
    match info.host
    case None => None
    case Some(h) => h.hostAddress
  }

  function NameValue(name: Option<string>): Value
  {
    match name
    case None => Null
    case Some(n) => Str(n)
  }

  /**
   * The event map tagged `tag` about `info`. It always carries the method
   * tag; without a record it carries nothing else. With a record it carries
   * the record's name, canonical type, host name (`""` if unknown), port
   * and TXT attributes, and an `addr` pair `[address, port]` exactly when a
   * host address is known.
   */
  function MapFromServiceInfo(tag: string, info: Option<Info>): (e: Event)
    ensures MethodKey in e && e[MethodKey] == Str(tag)
    ensures info.None? ==> e.Keys == {MethodKey}
    ensures info.Some? ==> RecordKeys <= e.Keys <= RecordKeys + {AddrKey}
    ensures AddrKey in e <==> info.Some? && HostAddress(info.value).Some?
    ensures AddrKey in e ==>
              e[AddrKey] == List([Str(HostAddress(info.value).value), Int(info.value.port)])
    ensures info.Some? ==>
              && e[NameKey] == NameValue(info.value.name)
              && e[TypeKey] == Str(ServiceType.Canonical(info.value.serviceType))
              && e[HostNameKey] == Str(HostNameOrEmpty(info.value))
              && e[PortKey] == Int(info.value.port)
              && e[TxtKey] == Txt(info.value.attributes)
  {
    var tagged: Event := map[MethodKey := Str(tag)];
    match info
    case None => tagged
    case Some(si) =>
      var fields := tagged[NameKey := NameValue(si.name)]
                       [TypeKey := Str(ServiceType.Canonical(si.serviceType))]
                       [HostNameKey := Str(HostNameOrEmpty(si))]
                       [PortKey := Int(si.port)]
                       [TxtKey := Txt(si.attributes)];
      match HostAddress(si)
      case None => fields
      case Some(a) => fields[AddrKey := List([Str(a), Int(si.port)])]
  }

  /** The `[address, port]` pair of an event, as the consumer reads it back. */
  function ReadAddr(e: Event): Option<(string, int)>
  {
    if AddrKey in e then
      match e[AddrKey]
      case List(items) =>
        if |items| == 2 && items[0].Str? && items[1].Int? then Some((items[0].s, items[1].i)) else None
      case _ => None
    else None
  }

  /**
   * Reading the address back out of an event gives the record's host
   * address paired with its port, and nothing when no address is known or
   * the event is about no record at all.
   */
  lemma ReadAddrOfMap(tag: string, info: Option<Info>)
    ensures ReadAddr(MapFromServiceInfo(tag, info)) ==
              if info.Some? && HostAddress(info.value).Some?
              then Some((HostAddress(info.value).value, info.value.port))
              else None
  {
  }

  /**
   * The event map loses only the delimiters of the service type and the
   * difference between a null and an empty host name: two records that give
   * the same event agree on everything else.
   */
  lemma MapDeterminesRecord(tag: string, a: Info, b: Info)
    ensures MapFromServiceInfo(tag, Some(a)) == MapFromServiceInfo(tag, Some(b)) ==>
              && a.name == b.name && a.port == b.port && a.attributes == b.attributes
              && HostAddress(a) == HostAddress(b) && HostNameOrEmpty(a) == HostNameOrEmpty(b)
              && ServiceType.Canonical(a.serviceType) == ServiceType.Canonical(b.serviceType)
  {
    var e := MapFromServiceInfo(tag, Some(a));
    if e == MapFromServiceInfo(tag, Some(b)) {
      assert e[NameKey] == NameValue(a.name) == NameValue(b.name);
    }
  }

  /** An unresolved record reports the empty host name and no address. */
  lemma UnresolvedRecordMap(tag: string, info: Info)
    requires info.host.None?
    ensures var e := MapFromServiceInfo(tag, Some(info));
            e[HostNameKey] == Str("") && AddrKey !in e && e.Keys == RecordKeys
  {
  }
}
