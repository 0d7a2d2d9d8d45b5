/**
 Addresses as byte slices, and the conversion of version 3 group records to items.
 */
module Records {
  import opened Base

  /** An address from a slice of 4 or 16 bytes; anything else is invalid. */
  function Netip2Addr(ip: seq<Byte>): Option<Addr> {
    if |ip| == 4 then Some(V4(ip[0], ip[1], ip[2], ip[3]))
    else if |ip| == 16 then Some(V6(ip))
    else None
  }

  /** The slice of an address; the zero address has none. */
  function Addr2NetIP(addr: Addr): Option<seq<Byte>> {
    match addr
    case NoAddr => None
    case V4(b0, b1, b2, b3) => Some([b0, b1, b2, b3])
    case V6(bytes) => Some(bytes)
  }

  predicate IsAddress(ip: seq<Byte>) {
    |ip| == 4 || |ip| == 16
  }

  /** The two conversions are inverse to each other wherever they succeed. */
  lemma AddressRoundTrip(ip: seq<Byte>, addr: Addr)
    ensures Netip2Addr(ip).Some? <==> IsAddress(ip)
    ensures |ip| == 4 ==> Netip2Addr(ip) == Some(V4(ip[0], ip[1], ip[2], ip[3]))
    ensures |ip| == 16 ==> Netip2Addr(ip) == Some(V6(ip))
    ensures IsAddress(ip) ==> Addr2NetIP(Netip2Addr(ip).value) == Some(ip)
    ensures Addr2NetIP(addr).Some? <==> addr != NoAddr
    ensures addr != NoAddr && (addr.V6? ==> |addr.bytes| == 16) ==> Netip2Addr(Addr2NetIP(addr).value) == Some(addr)
  {
    if |ip| == 4 { assert ip == [ip[0], ip[1], ip[2], ip[3]]; }
  }

  datatype GroupRecord = GroupRecord(sources: seq<seq<Byte>>, group: seq<Byte>)

  predicate WellFormed(record: GroupRecord) {
    IsAddress(record.group) && forall j | 0 <= j < |record.sources| :: IsAddress(record.sources[j])
  }

  /** The item's addresses are the record's, in the same order. */
  predicate Represents(item: Item, record: GroupRecord) {
    && Addr2NetIP(item.group) == Some(record.group)
    && |item.sources| == |record.sources|
    && forall j | 0 <= j < |record.sources| :: Addr2NetIP(item.sources[j]) == Some(record.sources[j])
  }

  /** The sources of one record, or None at the first invalid one. */
  method ConvertSources(sources: seq<seq<Byte>>) returns (r: Option<seq<Addr>>)
    ensures r.Some? <==> forall j | 0 <= j < |sources| :: IsAddress(sources[j])
    ensures r.Some? ==> |r.value| == |sources|
    ensures r.Some? ==> forall j | 0 <= j < |sources| :: Addr2NetIP(r.value[j]) == Some(sources[j])
  {
    var addrs: seq<Addr> := [];
    for j := 0 to |sources|
      invariant |addrs| == j
      invariant forall k | 0 <= k < j :: IsAddress(sources[k]) && Addr2NetIP(addrs[k]) == Some(sources[k])
    {
      AddressRoundTrip(sources[j], NoAddr);
      var na := Netip2Addr(sources[j]);
      if na.None? { return None; }
      addrs := addrs + [na.value];
    }
    return Some(addrs);
  }

  /**
   Converts every record, in order; None stands for the fatal error on the first address that
   is not one.
   */
  method GroupRecordsToMembershipItem(records: seq<GroupRecord>) returns (r: Option<seq<Item>>)
    ensures r.Some? <==> forall k | 0 <= k < |records| :: WellFormed(records[k])
    ensures r.Some? ==> |r.value| == |records| && forall k | 0 <= k < |records| :: Represents(r.value[k], records[k])
  {
    var mitems: seq<Item> := [];
    for k := 0 to |records|
      invariant |mitems| == k
      invariant forall m | 0 <= m < k :: WellFormed(records[m]) && Represents(mitems[m], records[m])
    {
      var sources := ConvertSources(records[k].sources);
      if sources.None? { return None; }
      AddressRoundTrip(records[k].group, NoAddr);
      var group := Netip2Addr(records[k].group);
      if group.None? { return None; }
      mitems := mitems + [Item(sources.value, group.value)];
    }
    return Some(mitems);
  }
}
