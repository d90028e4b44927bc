/**
 * The connected-device report: one entry per DHCP lease, enriched from the
 * first ARP entry and the first wireless registration with the same MAC,
 * followed by one entry per active hotspot user; and the two lookups over it
 * (by MAC, case-insensitively, and by interface).
 *
 * A device table row is a record whose attributes may be missing; a missing
 * attribute is None and takes the default the report gives it.
 */
module ConnectedDevices {
  import opened Common

  datatype Lease = Lease(
    macAddress: Option<string>, address: Option<string>, hostName: Option<string>,
    status: Option<string>, expiresAfter: Option<string>, clientId: Option<string>,
    server: Option<string>, active: Option<bool>)

  datatype ArpEntry = ArpEntry(macAddress: Option<string>, interfaceName: Option<string>, status: Option<string>)

  datatype WirelessClient = WirelessClient(
    macAddress: Option<string>, interfaceName: Option<string>, uptime: Option<string>,
    signalStrength: Option<string>, txRate: Option<string>, rxRate: Option<string>, ssid: Option<string>)

  datatype HotspotUser = HotspotUser(
    macAddress: Option<string>, address: Option<string>, user: Option<string>,
    uptime: Option<string>, idleTime: Option<string>, bytesIn: Option<int>, bytesOut: Option<int>)

  datatype DeviceKind = Dhcp | Wireless | Hotspot

  datatype ArpInfo = ArpInfo(interfaceName: string, arpStatus: string)

  datatype WirelessInfo = WirelessInfo(
    interfaceName: string, uptime: string, signalStrength: string,
    txRate: string, rxRate: string, ssid: string)

  datatype Device =
    | LeaseDevice(
        macAddress: string, ipAddress: string, hostname: string, status: string,
        expiresAt: string, clientId: string, server: string, active: bool,
        arp: Option<ArpInfo>, wirelessInfo: Option<WirelessInfo>)
    | HotspotDevice(
        macAddress: string, ipAddress: string, username: string, uptime: string,
        idleTime: string, bytesIn: int, bytesOut: int)
  {
    /** The report's 'type': a lease is 'wireless' once a registration matched it. */
    function Kind(): DeviceKind {
      if HotspotDevice? then Hotspot else if wirelessInfo.Some? then Wireless else Dhcp
    }
  }

  // ---------------------------------------------------------------------
  // First matches
  // ---------------------------------------------------------------------

  /** The ARP entry has this MAC (an entry without one matches nothing, not even ""). */
  predicate ArpMatches(a: ArpEntry, mac: string) {
    a.macAddress == Some(mac)
  }

  predicate ClientMatches(c: WirelessClient, mac: string) {
    c.macAddress == Some(mac)
  }

  /** Entry j is the first ARP entry with this MAC. */
  predicate FirstArpAt(arp: seq<ArpEntry>, mac: string, j: int)
    requires 0 <= j < |arp|
  {
    ArpMatches(arp[j], mac) && forall k :: 0 <= k < j ==> !ArpMatches(arp[k], mac)
  }

  /** Registration j is the first wireless registration with this MAC. */
  predicate FirstClientAt(cs: seq<WirelessClient>, mac: string, j: int)
    requires 0 <= j < |cs|
  {
    ClientMatches(cs[j], mac) && forall k :: 0 <= k < j ==> !ClientMatches(cs[k], mac)
  }

  /** The index of the first ARP entry with this MAC. */
  function FirstArp(arp: seq<ArpEntry>, mac: string): (r: Option<nat>)
    ensures r.Some? ==> r.value < |arp| && ArpMatches(arp[r.value], mac)
    ensures r.Some? ==> forall j :: 0 <= j < r.value ==> !ArpMatches(arp[j], mac)
    ensures r.None? <==> forall j :: 0 <= j < |arp| ==> !ArpMatches(arp[j], mac)
  {
    if arp == [] then None
    else if ArpMatches(arp[0], mac) then Some(0)
    else
      var rest := FirstArp(arp[1..], mac);
      assert forall j :: 0 < j < |arp| ==> arp[j] == arp[1..][j - 1];
      if rest.Some? then Some(rest.value + 1) else None
  }

  /** The index of the first wireless registration with this MAC. */
  function FirstClient(cs: seq<WirelessClient>, mac: string): (r: Option<nat>)
    ensures r.Some? ==> r.value < |cs| && ClientMatches(cs[r.value], mac)
    ensures r.Some? ==> forall j :: 0 <= j < r.value ==> !ClientMatches(cs[j], mac)
    ensures r.None? <==> forall j :: 0 <= j < |cs| ==> !ClientMatches(cs[j], mac)
  {
    if cs == [] then None
    else if ClientMatches(cs[0], mac) then Some(0)
    else
      var rest := FirstClient(cs[1..], mac);
      assert forall j :: 0 < j < |cs| ==> cs[j] == cs[1..][j - 1];
      if rest.Some? then Some(rest.value + 1) else None
  }

  // ---------------------------------------------------------------------
  // Report entries
  // ---------------------------------------------------------------------

  function ArpInfoOf(a: ArpEntry): ArpInfo {
    ArpInfo(a.interfaceName.GetOr(""), a.status.GetOr(""))
  }

  function WirelessInfoOf(c: WirelessClient): WirelessInfo {
    WirelessInfo(c.interfaceName.GetOr(""), c.uptime.GetOr(""), c.signalStrength.GetOr(""),
                 c.txRate.GetOr(""), c.rxRate.GetOr(""), c.ssid.GetOr(""))
  }

  /** A lease's entry, without the ARP and wireless parts. */
  function BareLeaseEntry(l: Lease): Device {
    LeaseDevice(l.macAddress.GetOr(""), l.address.GetOr(""), l.hostName.GetOr("Unknown"),
                l.status.GetOr("unknown"), l.expiresAfter.GetOr(""), l.clientId.GetOr(""),
                l.server.GetOr(""), l.active.GetOr(false), None, None)
  }

  /** A lease's entry in the report. */
  function LeaseEntry(l: Lease, arp: seq<ArpEntry>, wireless: seq<WirelessClient>): Device {
    var mac := l.macAddress.GetOr("");
    var a := FirstArp(arp, mac);
    var c := FirstClient(wireless, mac);
    BareLeaseEntry(l).(arp := if a.Some? then Some(ArpInfoOf(arp[a.value])) else None,
                       wirelessInfo := if c.Some? then Some(WirelessInfoOf(wireless[c.value])) else None)
  }

  function HotspotEntry(u: HotspotUser): Device {
    HotspotDevice(u.macAddress.GetOr(""), u.address.GetOr(""), u.user.GetOr(""),
                  u.uptime.GetOr(""), u.idleTime.GetOr(""), u.bytesIn.GetOr(0), u.bytesOut.GetOr(0))
  }

  /** The whole report: lease entries in lease order, then hotspot entries (none when the hotspot is off). */
  function Report(leases: seq<Lease>, arp: seq<ArpEntry>, wireless: seq<WirelessClient>,
                  hotspot: Option<seq<HotspotUser>>): seq<Device>
  {
    seq(|leases|, i requires 0 <= i < |leases| => LeaseEntry(leases[i], arp, wireless))
    + (if hotspot.Some? then seq(|hotspot.value|, i requires 0 <= i < |hotspot.value| => HotspotEntry(hotspot.value[i]))
       else [])
  }

  /** The report's shape: one entry per lease, in order, then one per hotspot user. */
  lemma ReportShape(leases: seq<Lease>, arp: seq<ArpEntry>, wireless: seq<WirelessClient>,
                    hotspot: Option<seq<HotspotUser>>)
    ensures var r := Report(leases, arp, wireless, hotspot);
      && |r| == |leases| + (if hotspot.Some? then |hotspot.value| else 0)
      && (forall i :: 0 <= i < |leases| ==>
            r[i].LeaseDevice? && r[i].macAddress == leases[i].macAddress.GetOr(""))
      && (forall i :: |leases| <= i < |r| ==>
            r[i] == HotspotEntry(hotspot.value[i - |leases|]))
  {
  }

  /**
   * A lease entry is typed 'wireless' iff some registration has its MAC, and
   * then carries the first such registration; likewise its interface comes
   * from the first ARP entry with its MAC.
   */
  lemma LeaseEntryMatches(l: Lease, arp: seq<ArpEntry>, wireless: seq<WirelessClient>)
    ensures var d := LeaseEntry(l, arp, wireless); var mac := l.macAddress.GetOr("");
      && (d.Kind() == Wireless <==> exists j :: 0 <= j < |wireless| && ClientMatches(wireless[j], mac))
      && (d.Kind() == Dhcp <==> forall j :: 0 <= j < |wireless| ==> !ClientMatches(wireless[j], mac))
      && (d.arp.Some? <==> exists j :: 0 <= j < |arp| && ArpMatches(arp[j], mac))
      && (forall j :: 0 <= j < |wireless| && FirstClientAt(wireless, mac, j) ==>
            d.wirelessInfo == Some(WirelessInfoOf(wireless[j])))
      && (forall j :: 0 <= j < |arp| && FirstArpAt(arp, mac, j) ==>
            d.arp == Some(ArpInfoOf(arp[j])))
  {
    var mac := l.macAddress.GetOr("");
    var a := FirstArp(arp, mac);
    var c := FirstClient(wireless, mac);
    forall j | 0 <= j < |wireless| && FirstClientAt(wireless, mac, j)
      ensures c == Some(j)
    {
      FirstClientIsFirst(wireless, mac, j);
    }
    forall j | 0 <= j < |arp| && FirstArpAt(arp, mac, j)
      ensures a == Some(j)
    {
      FirstArpIsFirst(arp, mac, j);
    }
  }

  /** The search loop for the first ARP entry with a MAC. */
  method FindArp(arp: seq<ArpEntry>, mac: string) returns (r: Option<nat>)
    ensures r == FirstArp(arp, mac)
  {
    r := None;
    var i := 0;
    while i < |arp|
      invariant 0 <= i <= |arp|
      invariant forall j :: 0 <= j < i ==> !ArpMatches(arp[j], mac)
    {
      if ArpMatches(arp[i], mac) {
        r := Some(i);
        FirstArpIsFirst(arp, mac, i);
        return;
      }
      i := i + 1;
    }
  }

  method FindClient(cs: seq<WirelessClient>, mac: string) returns (r: Option<nat>)
    ensures r == FirstClient(cs, mac)
  {
    r := None;
    var i := 0;
    while i < |cs|
      invariant 0 <= i <= |cs|
      invariant forall j :: 0 <= j < i ==> !ClientMatches(cs[j], mac)
    {
      if ClientMatches(cs[i], mac) {
        r := Some(i);
        FirstClientIsFirst(cs, mac, i);
        return;
      }
      i := i + 1;
    }
  }

  lemma FirstArpIsFirst(arp: seq<ArpEntry>, mac: string, i: nat)
    requires i < |arp| && ArpMatches(arp[i], mac)
    requires forall j :: 0 <= j < i ==> !ArpMatches(arp[j], mac)
    ensures FirstArp(arp, mac) == Some(i)
  {
    var a := FirstArp(arp, mac);
    assert a.Some?;
    assert ArpMatches(arp[a.value], mac);
    assert a.value >= i;
  }

  lemma FirstClientIsFirst(cs: seq<WirelessClient>, mac: string, i: nat)
    requires i < |cs| && ClientMatches(cs[i], mac)
    requires forall j :: 0 <= j < i ==> !ClientMatches(cs[j], mac)
    ensures FirstClient(cs, mac) == Some(i)
  {
    var c := FirstClient(cs, mac);
    assert c.Some?;
    assert ClientMatches(cs[c.value], mac);
    assert c.value >= i;
  }

  /** The merge loop of get_connected_devices, over tables that answered. */
  method BuildReport(leases: seq<Lease>, arp: seq<ArpEntry>, wireless: seq<WirelessClient>,
                     hotspot: Option<seq<HotspotUser>>) returns (devices: seq<Device>)
    ensures devices == Report(leases, arp, wireless, hotspot)
  {
    devices := [];
    var i := 0;
    while i < |leases|
      invariant 0 <= i <= |leases|
      invariant devices == seq(i, k requires 0 <= k < i => LeaseEntry(leases[k], arp, wireless))
    {
      var l := leases[i];
      var mac := l.macAddress.GetOr("");
      var device := BareLeaseEntry(l);
      var a := FindArp(arp, mac);
      if a.Some? {
        device := device.(arp := Some(ArpInfoOf(arp[a.value])));
      }
      var c := FindClient(wireless, mac);
      if c.Some? {
        device := device.(wirelessInfo := Some(WirelessInfoOf(wireless[c.value])));
      }
      devices := devices + [device];
      i := i + 1;
    }
    if hotspot.Some? {
      var hs := hotspot.value;
      var j := 0;
      while j < |hs|
        invariant 0 <= j <= |hs|
        invariant devices == seq(|leases|, k requires 0 <= k < |leases| => LeaseEntry(leases[k], arp, wireless))
                             + seq(j, k requires 0 <= k < j => HotspotEntry(hs[k]))
      {
        devices := devices + [HotspotEntry(hs[j])];
        j := j + 1;
      }
    }
  }

  // ---------------------------------------------------------------------
  // Lookups
  // ---------------------------------------------------------------------

  /** The MACs agree ignoring (ASCII) case. */
  predicate MacMatches(d: Device, mac: string) {
    Lower(d.macAddress) == Lower(mac)
  }

  /** The first device whose MAC matches, if any. */
  function FirstWithMac(devices: seq<Device>, mac: string): (r: Option<Device>)
    ensures r.None? <==> forall j :: 0 <= j < |devices| ==> !MacMatches(devices[j], mac)
    ensures r.Some? ==> exists i :: 0 <= i < |devices| && devices[i] == r.value && MacMatches(devices[i], mac)
                                    && forall j :: 0 <= j < i ==> !MacMatches(devices[j], mac)
  {
    if devices == [] then None
    else if MacMatches(devices[0], mac) then Some(devices[0])
    else
      var r := FirstWithMac(devices[1..], mac);
      assert forall j :: 0 < j < |devices| ==> devices[j] == devices[1..][j - 1];
      if r.Some? then
        var i :| 0 <= i < |devices[1..]| && devices[1..][i] == r.value && MacMatches(devices[1..][i], mac)
                 && forall j :: 0 <= j < i ==> !MacMatches(devices[1..][j], mac);
        assert devices[i + 1] == r.value;
        r
      else r
  }

  /** get_device_by_mac's loop. */
  method FindByMac(devices: seq<Device>, mac: string) returns (r: Option<Device>)
    ensures r == FirstWithMac(devices, mac)
  {
    var i := 0;
    while i < |devices|
      invariant 0 <= i <= |devices|
      invariant FirstWithMac(devices[i..], mac) == FirstWithMac(devices, mac)
    {
      assert devices[i..][1..] == devices[i + 1..];
      if MacMatches(devices[i], mac) {
        return Some(devices[i]);
      }
      i := i + 1;
    }
    return None;
  }

  /**
   * The device is on the interface: its ARP interface is that name, or its
   * wireless registration's interface is. A hotspot entry has neither.
   */
  predicate OnInterface(d: Device, name: string) {
    d.LeaseDevice? &&
    ((d.arp.Some? && d.arp.value.interfaceName == name) ||
     (d.wirelessInfo.Some? && d.wirelessInfo.value.interfaceName == name))
  }

  /** The devices on the interface, in report order. */
  function DevicesOn(devices: seq<Device>, name: string): (r: seq<Device>)
    ensures forall d :: d in r <==> d in devices && OnInterface(d, name)
    ensures |r| <= |devices|
  {
    if devices == [] then []
    else DevicesOn(devices[..|devices| - 1], name)
         + (if OnInterface(devices[|devices| - 1], name) then [devices[|devices| - 1]] else [])
  }

  /** get_devices_by_interface's loop. */
  method SelectByInterface(devices: seq<Device>, name: string) returns (r: seq<Device>)
    ensures r == DevicesOn(devices, name)
  {
    r := [];
    var i := 0;
    while i < |devices|
      invariant 0 <= i <= |devices|
      invariant r == DevicesOn(devices[..i], name)
    {
      assert devices[..i + 1][..i] == devices[..i];
      if OnInterface(devices[i], name) {
        r := r + [devices[i]];
      }
      i := i + 1;
    }
    assert devices[..i] == devices;
  }

  /** Hotspot entries are never selected by interface, and a selection of a selection changes nothing. */
  lemma {:induction false} DevicesOnFacts(devices: seq<Device>, name: string)
    ensures forall d :: d in DevicesOn(devices, name) ==> d.LeaseDevice?
    ensures DevicesOn(DevicesOn(devices, name), name) == DevicesOn(devices, name)
  {
    if devices != [] {
      var init := devices[..|devices| - 1];
      var last := devices[|devices| - 1];
      DevicesOnFacts(init, name);
      var r := DevicesOn(init, name);
      var tail := if OnInterface(last, name) then [last] else [];
      DevicesOnAppend(r, tail, name);
    }
  }

  lemma {:induction false} DevicesOnAppend(a: seq<Device>, b: seq<Device>, name: string)
    ensures DevicesOn(a + b, name) == DevicesOn(a, name) + DevicesOn(b, name)
    decreases |b|
  {
    if b == [] {
      assert a + b == a;
    } else {
      assert (a + b)[..|a + b| - 1] == a + b[..|b| - 1];
      DevicesOnAppend(a, b[..|b| - 1], name);
    }
  }
}
