/**
  The devices a device manager holds.

  A device is an object with a read-only name. Devices are compared by
  reference: the one concrete device, the printer, does not redefine
  equality, so two printers are two different devices even though they
  share a name. A Dafny class gives exactly that identity.
 */
module Devices {

  /** The name every printer reports. */
  const PrinterName: string := "Printer"

  /** A managed device; `name` is the read-only Name property. */
  class Device {
    const name: string

    /** A new printer; its name is always "Printer". */
    constructor Printer()
      ensures name == PrinterName
    {
      name := PrinterName;
    }
  }
}
