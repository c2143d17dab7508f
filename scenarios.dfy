/**
  The two unit-test scenarios of the device manager, stated over the
  console text that listing writes.
 */
module RegistryScenarios {
  import opened Devices
  import opened DeviceRegistry
  import opened ConsoleText

  /**
    A fresh manager with one printer added lists "- Printer".
   */
  method ListingAfterAddShowsPrinter() returns (output: string)
    ensures Occurs("- Printer", output)
  {
    var manager := CreateDeviceManager();
    var printer := new Device.Printer();
    var _ := manager.AddDevice(printer);
    var lines := manager.ListDevices();
    output := Output(lines);
    ListingShape(manager.devices);
    LineOccursInOutput(lines, 1);
  }

  /**
    A fresh manager whose only printer is added and removed again lists
    no "- Printer".
   */
  method ListingAfterRemoveOmitsPrinter() returns (output: string)
    ensures !Occurs("- Printer", output)
  {
    var manager := CreateDeviceManager();
    var printer := new Device.Printer();
    var _ := manager.AddDevice(printer);
    var _ := manager.RemoveDevice(printer);
    assert manager.devices == [];
    var lines := manager.ListDevices();
    output := Output(lines);
    assert lines == [ListingHeader];
    assert lines[1..] == [];
    assert Output(lines[1..]) == "";
    assert output == "Devices:" + "\n" + "";
    assert !("- Printer" <= output) by {
      assert output[0] != "- Printer"[0];
    }
    forall k | 1 <= k <= |output|
      ensures !("- Printer" <= output[k..])
    {
      assert |output[k..]| < 9;
    }
  }

  /**
    Whatever the manager already holds, once a printer is added the
    listing's text contains "- Printer".
   */
  lemma AddedPrinterIsListed(s: seq<Device>, p: Device)
    requires p.name == PrinterName
    ensures Occurs("- Printer", Output(Listing(s + [p])))
  {
    ListingShape(s + [p]);
    LineOccursInOutput(Listing(s + [p]), |s| + 1);
  }

  /**
    A device that was not held and is added and then removed leaves the
    registry, and so its listing, as it was.
   */
  lemma AddThenRemoveRestoresListing(s: seq<Device>, d: Device)
    requires d !in s
    ensures RemoveFirst(s + [d], d) == s
    ensures Listing(RemoveFirst(s + [d], d)) == Listing(s)
  {
    AddThenRemove(s, d);
  }
}
