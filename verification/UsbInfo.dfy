/** The event that reports the USB device to the host stack. */
module UsbInfo {
  import opened ByteTypes
  import opened Wrappers
  import UsbPath

  datatype Device = Device(vendor: U16, product: U16, bus: Byte, path: Bytes)

  /** The receiving side: code, length of the rest, two little-endian ids, bus, path length, path. */
  function Decode(code: Byte, event: Bytes): Option<Device> {
    if |event| < 8 || event[0] != code || event[1] != |event| - 2 || event[7] != |event| - 8 then None
    else Some(Device(FromLittleEndian(event[2], event[3]), FromLittleEndian(event[4], event[5]), event[6], event[8..]))
  }

  /** emit_usb_info: the event is built by appending; both lengths are cast to u8. */
  method BuildUsbInfo(code: Byte, device: Device) returns (event: Bytes)
    ensures |event| == 8 + |device.path|
    ensures Decode(code, event) == Some(device) <==> |device.path| <= 249
    ensures |device.path| <= 249 ==> event[1] == |event| - 2
    ensures event[..8] == [
      code, (6 + |device.path|) % 256,
      device.vendor % 256, device.vendor / 256, device.product % 256, device.product / 256,
      device.bus, |device.path| % 256]
    ensures event[8..] == device.path
  {
    event := [code];
    event := event + [(6 + |device.path|) % 256];
    event := event + LittleEndian(device.vendor);
    event := event + LittleEndian(device.product);
    event := event + [device.bus];
    event := event + [|device.path| % 256];
    event := event + device.path;
    assert event[8..] == device.path;
  }

  /** The path of a device as transport_open reports it: parsed from its name, or empty. */
  method ReportDevice(code: Byte, vendor: U16, product: U16, bus: Byte, name: string) returns (event: Bytes)
    ensures exists path ::
      && Decode(code, event) == Some(Device(vendor, product, bus, path))
      && (UsbPath.Names(name, path) || (path == [] && forall p :: !UsbPath.Names(name, p)))
    ensures |event| <= 15 && event[1] == |event| - 2
  {
    var parsed := UsbPath.ParseUsbPath(name);
    var path := if parsed.Some? then parsed.value else [];
    event := BuildUsbInfo(code, Device(vendor, product, bus, path));
  }
}
