/**
 * The MediaRenderer device: its service table, its description record with
 * the configuration overrides and the MAC address merged into the UDN, and
 * the start-up sequence that initialises the services.
 */
module Renderer {
  import opened Common
  import TransportStore
  import ConnMgr

  /** The services the device publishes. */
  datatype ServiceId = AVTransportService | ConnectionManagerService | RenderingControlService

  /** The device's NULL-terminated service table. */
  const ServiceTable: seq<Option<ServiceId>> :=
    [Some(AVTransportService), Some(ConnectionManagerService), Some(RenderingControlService), None]

  /** The entries a walk over a NULL-terminated table visits: those before the first NULL. */
  function Walk<T>(table: seq<Option<T>>): (r: seq<T>)
    ensures |r| <= |table|
    ensures forall k :: 0 <= k < |r| ==> table[k] == Some(r[k])
    ensures |r| < |table| ==> table[|r|].None?
    decreases |table|
  {
    if |table| == 0 || table[0].None? then [] else [table[0].value] + Walk(table[1..])
  }

  /** The device publishes the transport, the connection manager and rendering control, in that order. */
  lemma PublishedServices()
    ensures Walk(ServiceTable) == [AVTransportService, ConnectionManagerService, RenderingControlService]
  {
    var r := Walk(ServiceTable);
    assert |r| == 3;
  }

  // ---------------------------------------------------------------------
  // The UDN
  // ---------------------------------------------------------------------

  /** The built-in UDN; its last twelve hex digits make room for a MAC address. */
  const UdnTemplate: string := "uuid:1b42696d-" + "0d62-4af2-adb8-" + "-aabbccddeeff"

  /**
   * The merge loop from step `k` on: step k copies the two characters of
   * the k-th MAC octet (at 3k and 3k+1, skipping the separator at 3k+2)
   * to positions 29+2k and 30+2k.
   */
  function MergeFrom(udn: string, mac: string, k: nat): (r: string)
    requires |udn| >= 41 && |mac| >= 17 && k <= 6
    ensures |r| == |udn|
    ensures forall i :: 0 <= i < |udn| && !(29 + 2 * k <= i < 41) ==> r[i] == udn[i]
    ensures forall j :: k <= j < 6 ==> r[29 + 2 * j] == mac[3 * j] && r[30 + 2 * j] == mac[3 * j + 1]
    decreases 6 - k
  {
    if k == 6 then udn
    else MergeFrom(udn[29 + 2 * k := mac[3 * k]][30 + 2 * k := mac[3 * k + 1]], mac, k + 1)
  }

  /**
   * The MAC merge of upnp_renderer_new: the length is kept, positions 0..28
   * and from 41 on are untouched, and the six octets land pairwise at 29..40.
   */
  function MergeMac(udn: string, mac: string): (r: string)
    requires |udn| >= 41 && |mac| >= 17
    ensures |r| == |udn|
    ensures forall i :: 0 <= i < 29 ==> r[i] == udn[i]
    ensures forall i :: 41 <= i < |udn| ==> r[i] == udn[i]
    ensures forall j :: 0 <= j < 6 ==> r[29 + 2 * j] == mac[3 * j] && r[30 + 2 * j] == mac[3 * j + 1]
  {
    MergeFrom(udn, mac, 0)
  }

  /** The MAC position a UDN position in 29..40 is copied from. */
  function MacSource(i: nat): (m: nat)
    requires 29 <= i < 41
    ensures m < 17 && m % 3 != 2
  {
    var j := i - 29;
    3 * (j / 2) + j % 2
  }

  /** Every merged position holds a MAC character that is not a separator position. */
  lemma {:induction false} NoSeparatorCopied(udn: string, mac: string)
    requires |udn| >= 41 && |mac| >= 17
    ensures forall i :: 29 <= i < 41 ==> MergeMac(udn, mac)[i] == mac[MacSource(i)]
  {
    var r := MergeMac(udn, mac);
    forall i | 29 <= i < 41
      ensures r[i] == mac[MacSource(i)]
    {
      var j := (i - 29) / 2;
      assert 0 <= j < 6;
      if (i - 29) % 2 == 0 {
        assert i == 29 + 2 * j && MacSource(i) == 3 * j;
      } else {
        assert i == 30 + 2 * j && MacSource(i) == 3 * j + 1;
      }
    }
  }

  /**
   * With the built-in template the merge overwrites the second of the two
   * dashes and leaves the template's final 'f' in place.
   */
  lemma TemplateMerge(mac: string)
    requires |mac| >= 17
    ensures MergeMac(UdnTemplate, mac)
            == "uuid:1b42696d-" + "0d62-4af2-adb8-"
               + [mac[0], mac[1], mac[3], mac[4], mac[6], mac[7], mac[9], mac[10], mac[12], mac[13], mac[15], mac[16]]
               + "f"
  {
    var r := MergeMac(UdnTemplate, mac);
    var head := "uuid:1b42696d-" + "0d62-4af2-adb8-";
    var octets := [mac[0], mac[1], mac[3], mac[4], mac[6], mac[7], mac[9], mac[10], mac[12], mac[13], mac[15], mac[16]];
    assert |head| == 29 && |UdnTemplate| == 42;
    assert r[..29] == head;
    assert r[29..41] == octets;
    assert r[41] == 'f';
    assert r == r[..29] + r[29..41] + [r[41]];
  }

  // ---------------------------------------------------------------------
  // The device description
  // ---------------------------------------------------------------------

  /** The fields of the device description that start-up may change. */
  datatype DeviceInfo = DeviceInfo(
    friendlyName: string,
    manufacturer: string,
    manufacturerUrl: string,
    modelDescription: string,
    modelName: string,
    modelNumber: string,
    modelUrl: string,
    serialNumber: string,
    udn: string)

  const HomeUrl: string := "http://www.kitsc" + "hensync.com"

  /** The built-in description; the package name and version come from the build configuration. */
  function RenderDevice(packageName: string, packageVersion: string): (d: DeviceInfo)
    ensures d.udn == UdnTemplate && |d.udn| == 42
    ensures d.friendlyName == packageName && d.modelName == "KS " + packageName
  {
    DeviceInfo(
      packageName, "Kitschensync", HomeUrl, "UPnP MPD Interface" + " Service",
      "KS " + packageName, packageVersion, HomeUrl + "/upnpmpd", "KSMPD-12345678", UdnTemplate)
  }

  /** The configuration file's string settings by name. */
  type Config = map<string, string>

  /** config_lookup_string into a field: a setting that is present replaces it, otherwise it is kept. */
  function Lookup(cfg: Config, key: string, current: string): string {
    if key in cfg then cfg[key] else current
  }

  /**
   * upnp_renderer_new: the friendly name comes from the command line, else
   * the configuration, else stays built in; six more fields may be
   * overridden by the configuration; the MAC is merged into the UDN. The
   * serial-number argument is not used.
   */
  function RendererNew(friendly: Option<string>, mac: string, sn: string, cfg: Config, base: DeviceInfo): (d: DeviceInfo)
    requires |base.udn| >= 41 && |mac| >= 17
    ensures friendly.Some? ==> d.friendlyName == friendly.value
    ensures friendly.None? && "friendly-name" in cfg ==> d.friendlyName == cfg["friendly-name"]
    ensures friendly.None? && "friendly-name" !in cfg ==> d.friendlyName == base.friendlyName
    ensures "manufacturer" in cfg ==> d.manufacturer == cfg["manufacturer"]
    ensures "manufacturer" !in cfg ==> d.manufacturer == base.manufacturer
    ensures "manufacturerURL" in cfg ==> d.manufacturerUrl == cfg["manufacturerURL"]
    ensures "manufacturerURL" !in cfg ==> d.manufacturerUrl == base.manufacturerUrl
    ensures "model-desc" in cfg ==> d.modelDescription == cfg["model-desc"]
    ensures "model-desc" !in cfg ==> d.modelDescription == base.modelDescription
    ensures "model-name" in cfg ==> d.modelName == cfg["model-name"]
    ensures "model-name" !in cfg ==> d.modelName == base.modelName
    ensures "model-number" in cfg ==> d.modelNumber == cfg["model-number"]
    ensures "model-number" !in cfg ==> d.modelNumber == base.modelNumber
    ensures "model-URL" in cfg ==> d.modelUrl == cfg["model-URL"]
    ensures "model-URL" !in cfg ==> d.modelUrl == base.modelUrl
    ensures d.serialNumber == base.serialNumber
    ensures d.udn == MergeMac(base.udn, mac)
  {
    DeviceInfo(
      if friendly.Some? then friendly.value else Lookup(cfg, "friendly-name", base.friendlyName),
      Lookup(cfg, "manufacturer", base.manufacturer),
      Lookup(cfg, "manufacturerURL", base.manufacturerUrl),
      Lookup(cfg, "model-desc", base.modelDescription),
      Lookup(cfg, "model-name", base.modelName),
      Lookup(cfg, "model-number", base.modelNumber),
      Lookup(cfg, "model-URL", base.modelUrl),
      base.serialNumber,
      MergeMac(base.udn, mac))
  }

  /** Only the command line, the configuration and the MAC decide the description, never the serial argument. */
  lemma SerialArgumentIgnored(friendly: Option<string>, mac: string, sn1: string, sn2: string, cfg: Config, base: DeviceInfo)
    requires |base.udn| >= 41 && |mac| >= 17
    ensures RendererNew(friendly, mac, sn1, cfg, base) == RendererNew(friendly, mac, sn2, cfg, base)
  {
  }

  // ---------------------------------------------------------------------
  // Start-up
  // ---------------------------------------------------------------------

  /** The services' state after the device's init routine, and that routine's return value. */
  datatype Initialized = Initialized(rc: int, transport: TransportStore.Transport, connmgr: ConnMgr.ConnValues)

  /**
   * upnp_renderer_init: initialises the transport, then rendering control,
   * and returns what the connection manager's init returns.
   */
  function RendererInit(reg: ConnMgr.Registry, allocOk: bool): (r: Initialized)
    ensures TransportStore.Valid(r.transport) && ConnMgr.ValidValues(r.connmgr)
    ensures r.transport.cell == TransportStore.Unknown && TransportStore.Initialized(r.transport.store)
    ensures r.rc == 0 <==> |reg| == 0 || allocOk
    ensures r.rc == 0 ==> ConnMgr.Read(r.connmgr, ConnMgr.SinkProtocolInfo)
                          == (if |reg| == 0 then ConnMgr.DefaultSink else ConnMgr.Join(ConnMgr.ProtoEntries(reg)))
  {
    var t := TransportStore.Init();
    var c := ConnMgr.ConnMgrInit(reg, allocOk);
    Initialized(c.rc, t, c.values)
  }

  /** The outcome of upnp_device_init: its return value and the services whose descriptions were registered. */
  datatype DeviceStarted = DeviceStarted(rc: int, init: Initialized, registered: seq<ServiceId>)

  /**
   * upnp_device_init for the renderer: a failing init routine stops it with
   * -1 before anything is registered; otherwise every service in the table
   * has its description registered, and the result is 0 exactly when the
   * libupnp start-up calls succeed (`upnpOk`).
   */
  function DeviceInit(reg: ConnMgr.Registry, allocOk: bool, upnpOk: bool): (r: DeviceStarted)
    ensures r.rc == 0 <==> (|reg| == 0 || allocOk) && upnpOk
    ensures r.rc != 0 ==> r.rc == -1
    ensures r.init.rc != 0 ==> r.registered == []
    ensures r.init.rc == 0 ==> r.registered == [AVTransportService, ConnectionManagerService, RenderingControlService]
  {
    var init := RendererInit(reg, allocOk);
    if init.rc != 0 then DeviceStarted(-1, init, [])
    else
      PublishedServices();
      DeviceStarted(if upnpOk then 0 else -1, init, Walk(ServiceTable))
  }
}
