# Device manager model

This project models a small device registry in Dafny. A `DeviceManager` keeps
an ordered list of devices and has three operations:

- **AddDevice** appends a device. It does not check for duplicates.
- **RemoveDevice** drops the first occurrence of a device. Devices are compared
  by reference. If the device is not held, the list stays as it was.
- **ListDevices** writes the header `Devices:`, then one `- <Name>` line per
  device, in the order the devices were added.

A factory creates an empty manager. The one concrete device is a printer, and
its name is always `Printer`.

The model has four modules:

- `Devices` (`devices.dfy`): the device class. A Dafny class reference has the
  same identity semantics as the C# object, so `==` on devices is reference
  equality, as `List<T>.Remove` uses it for a type that does not override
  `Equals`.
- `DeviceRegistry` (`registry.dfy`): the manager as a class whose `devices`
  field is a `seq<Device>`. It also holds the specification functions
  `IndexOf`, `RemoveFirst` and `Listing`, and the lemmas about them. The
  console lines each operation writes are returned as strings.
- `ConsoleText` (`console_text.dfy`): the lines joined into console text, and
  what it means for a fragment to occur in that text.
- `RegistryScenarios` (`scenarios.dfy`): the two unit-test scenarios, stated
  over the console text of a listing.

## Model

| member | source | states |
|---|---|---|
| `Devices.Device.Printer` | ConsoleApp1/Program.cs:77-80 | A new printer's name is "Printer". |
| `DeviceRegistry.DeviceManager.constructor` | ConsoleApp1/Program.cs:37 | A new manager holds no devices. |
| `DeviceRegistry.CreateDeviceManager` | ConsoleApp1/Program.cs:71-74 | The factory returns a newly allocated manager that holds no devices. |
| `DeviceRegistry.DeviceManager.AddDevice` | ConsoleApp1/Program.cs:40-44 | The new list is the old list plus the device at the end. Earlier entries keep their order. A device already held gains a second entry. The written line is "Device <name> added.". |
| `DeviceRegistry.DeviceManager.RemoveDevice` | ConsoleApp1/Program.cs:46-50 | An absent device leaves the list unchanged and is not an error. A held device loses exactly the entry at its first position, and the other entries keep their order. Exactly one occurrence of the device is removed, and nothing else. "Device <name> removed." is written in both cases. |
| `DeviceRegistry.DeviceManager.ListDevices` | ConsoleApp1/Program.cs:52-59 | The lines written equal the listing of the current list. The method has no modifies clause, so the registry is unchanged. |
| `DeviceRegistry.IndexOf` | ConsoleApp1/Program.cs:48 | The search used by the removal: -1 exactly when the device is not held; otherwise a position holding the device with no earlier occurrence. |
| `DeviceRegistry.RemoveFirst` | ConsoleApp1/Program.cs:48 | If the device is absent, the list is returned unchanged. If it is present, the list is one shorter. |
| `DeviceRegistry.RemoveFirstMultiset` | ConsoleApp1/Program.cs:48 | Removal takes away one occurrence of the device, or none if it is absent, and keeps every other device. |
| `DeviceRegistry.RemoveFirstDeletesFirstOccurrence` | ConsoleApp1/Program.cs:48 | Removal deletes exactly the entry at the first position of the device. The prefix before it and the suffix after it are kept in order. |
| `DeviceRegistry.DeviceLines` | ConsoleApp1/Program.cs:55-58 | One listing line per device. |
| `DeviceRegistry.DeviceLinesAt` | ConsoleApp1/Program.cs:55-57 | The k-th device line is "- " followed by the k-th device's name. |
| `DeviceRegistry.ListingShape` | ConsoleApp1/Program.cs:52-59 | A listing has one more line than there are devices. The first line is "Devices:". Line k+1 is "- <name of device k>", in insertion order. |
| `DeviceRegistry.ListingNamesHeldDevices` | ConsoleApp1/Program.cs:52-59 | A listing contains the line "- n" if and only if some held device is named n. |
| `DeviceRegistry.AddKeepsDuplicates` | ConsoleApp1/Program.cs:42 | Adding raises the device's number of occurrences by one. Adding a held device leaves at least two occurrences. |
| `ConsoleText.Output` | ConsoleApp1/Program.cs:54-57 | The console text starts with the first line written, followed by its newline. |
| `ConsoleText.LineOccursInOutput` | ConsoleApp1/Program.cs:54-57 | Every line written occurs in the console text. |
| `RegistryScenarios.ListingAfterAddShowsPrinter` | ConsoleApp1/DeviceManagerTest.cs:11-29 | A fresh manager with one printer added produces a listing text that contains "- Printer". |
| `RegistryScenarios.ListingAfterRemoveOmitsPrinter` | ConsoleApp1/DeviceManagerTest.cs:32-49 | A fresh manager whose printer is added and then removed produces a listing text that does not contain "- Printer". |
| `RegistryScenarios.AddedPrinterIsListed` | ConsoleApp1/DeviceManagerTest.cs:14-27 | Whatever the manager held before, after a printer is added the listing text contains "- Printer". |
| `RegistryScenarios.AddThenRemoveRestoresListing` | ConsoleApp1/DeviceManagerTest.cs:35-48 | Adding a device that was not held and then removing it restores the list and its listing. The test's one-printer case is an instance. |
| `DeviceRegistry.AddThenRemove` | ConsoleApp1/Program.cs:40-48 | Removing a device right after adding it restores the list when the device was new. Otherwise the earlier occurrence is removed and the new entry stays at the end. |
| `DeviceRegistry.AddedMessage` | ConsoleApp1/Program.cs:43 | The add message is exactly "Device ", the device name, then " added.". The name can be read back from it. |
| `DeviceRegistry.RemovedMessage` | ConsoleApp1/Program.cs:49 | The remove message is exactly "Device ", the device name, then " removed.". The name can be read back from it. |
| `DeviceRegistry.DeviceLine` | ConsoleApp1/Program.cs:57 | A listing line is exactly "- " followed by the device name. |
| `DeviceRegistry.Listing` | ConsoleApp1/Program.cs:54-58 | The reference definition of a listing: the header "Devices:" first, then the device lines, one line more than there are devices. |
| `ConsoleText.Occurs` | ConsoleApp1/DeviceManagerTest.cs:27 | The substring test behind the Contains assertion here and the DoesNotContain assertion at line 48. A fragment that occurs is no longer than the text, and every prefix of the text occurs in it. |

## Left out

- Console output is not performed. Each operation returns the lines it would write. The console text joins those lines with the single character '\n'; the platform's newline sequence is not modelled.
- `Printer.Start` and `Printer.Stop` (ConsoleApp1/Program.cs:83-86) only write a line and carry no state.
- `Program.Main` (ConsoleApp1/Program.cs:93-101) is a demo entry point.
- The `IDeviceManager` and `IDevice` interfaces (ConsoleApp1/Program.cs:6-30) are not modelled separately. The manager class and the device class stand for them, and the printer is the only device the code defines.
- `List<T>.Remove` returns whether it removed anything. The code ignores that result, so the model does not return it.
- The test framework and its `Console.SetOut` redirection are not modelled. The tests' substring assertions are stated over the console text that the listing lines produce.
- DeviceRegistry.DeviceManager.AddDevice, DeviceRegistry.DeviceManager.RemoveDevice and DeviceRegistry.DeviceManager.ListDevices: null devices are not modelled, because a device here is a non-null reference. In C#, `AddDevice(null)` appends null and then throws when it reads the name. `RemoveDevice(null)` removes the first null entry and then throws. `ListDevices` writes the lines before a null entry and then throws. The exception that follows such a partial update is not modelled either.
