/**
  The device manager: an ordered registry of devices with add, remove and
  list operations, and the factory that creates an empty one.

  What the manager writes to the console is returned as the lines written,
  one string per line.
 */
module DeviceRegistry {
  import opened Devices

  /**
    The line written after a device is added: the device's name framed by
    "Device " and " added.", so that the name can be read back from it.
   */
  function AddedMessage(d: Device): (m: string)
    ensures |m| == |d.name| + 14
    ensures m[..7] == "Device " && m[|m| - 7..] == " added."
    ensures m[7..|m| - 7] == d.name
  {
    "Device " + d.name + " added."
  }

  /**
    The line written after a device is removed, whether or not it was held:
    the device's name framed by "Device " and " removed.".
   */
  function RemovedMessage(d: Device): (m: string)
    ensures |m| == |d.name| + 16
    ensures m[..7] == "Device " && m[|m| - 9..] == " removed."
    ensures m[7..|m| - 9] == d.name
  {
    "Device " + d.name + " removed."
  }

  /** The header line of a listing. */
  const ListingHeader: string := "Devices:"

  /** The listing line for one device: "- " and then its name. */
  function DeviceLine(d: Device): (l: string)
    ensures |l| == |d.name| + 2
    ensures l[..2] == "- " && l[2..] == d.name
  {
    "- " + d.name
  }

  /**
    The position of the first device in `s` that is `d` (by reference),
    or -1 when `d` is not held.
   */
  function IndexOf(s: seq<Device>, d: Device): (r: int)
    ensures -1 <= r < |s|
    ensures r == -1 <==> d !in s
    ensures 0 <= r ==> s[r] == d && forall j :: 0 <= j < r ==> s[j] != d
  {
    if s == [] then -1
    else if s[0] == d then 0
    else
      var r := IndexOf(s[1..], d);
      if r == -1 then -1 else r + 1
  }

  /**
    `s` without its first occurrence of `d`; `s` itself when `d` is absent.
   */
  function RemoveFirst(s: seq<Device>, d: Device): (r: seq<Device>)
    ensures d !in s ==> r == s
    ensures d in s ==> |r| == |s| - 1
  {
    if s == [] then []
    else if s[0] == d then s[1..]
    else [s[0]] + RemoveFirst(s[1..], d)
  }

  /** Removal takes away one occurrence of `d` and no other device. */
  lemma {:induction false} RemoveFirstMultiset(s: seq<Device>, d: Device)
    ensures multiset(RemoveFirst(s, d)) == multiset(s) - multiset{d}
  {
    if s != [] {
      assert s == [s[0]] + s[1..];
      if s[0] != d {
        RemoveFirstMultiset(s[1..], d);
      }
    }
  }

  /**
    Removing a device whose first occurrence is at position i deletes
    exactly that entry: everything before it and everything after it stays,
    in order.
   */
  lemma {:induction false} RemoveFirstDeletesFirstOccurrence(s: seq<Device>, d: Device, i: nat)
    requires i < |s| && s[i] == d
    requires forall j :: 0 <= j < i ==> s[j] != d
    ensures RemoveFirst(s, d) == s[..i] + s[i + 1..]
  {
    if i == 0 {
      assert s[..0] + s[1..] == s[1..];
    } else {
      var t := s[1..];
      assert forall j :: 0 <= j < i - 1 ==> t[j] == s[j + 1];
      RemoveFirstDeletesFirstOccurrence(t, d, i - 1);
      assert RemoveFirst(s, d) == [s[0]] + RemoveFirst(t, d);
      assert s[..i] == [s[0]] + t[..i - 1];
      assert s[i + 1..] == t[i..];
    }
  }

  /**
    Adding a device and then removing it restores the registry when the
    device was not held before. When it was, the removal takes the earlier
    entry and the new one stays at the end.
   */
  lemma {:induction false} AddThenRemove(s: seq<Device>, d: Device)
    ensures RemoveFirst(s + [d], d) == if d in s then RemoveFirst(s, d) + [d] else s
  {
    if s == [] {
      assert [] + [d] == [d];
    } else {
      assert (s + [d])[1..] == s[1..] + [d];
      if s[0] != d {
        AddThenRemove(s[1..], d);
        assert d in s <==> d in s[1..];
      }
    }
  }

  /** One listing line per device, in registry order. */
  function DeviceLines(s: seq<Device>): (r: seq<string>)
    ensures |r| == |s|
  {
    if s == [] then [] else DeviceLines(s[..|s| - 1]) + [DeviceLine(s[|s| - 1])]
  }

  /** Everything ListDevices writes: the header, then the device lines. */
  function Listing(s: seq<Device>): (r: seq<string>)
    ensures |r| == |s| + 1
    ensures r[0] == ListingHeader
  {
    [ListingHeader] + DeviceLines(s)
  }

  /** The k-th device line names the k-th device. */
  lemma {:induction false} DeviceLinesAt(s: seq<Device>, k: nat)
    requires k < |s|
    ensures DeviceLines(s)[k] == DeviceLine(s[k])
  {
    if k < |s| - 1 {
      DeviceLinesAt(s[..|s| - 1], k);
    }
  }

  /**
    A listing is the header followed by exactly one "- <Name>" line per
    device, in insertion order.
   */
  lemma ListingShape(s: seq<Device>)
    ensures |Listing(s)| == |s| + 1
    ensures Listing(s)[0] == ListingHeader
    ensures forall k :: 0 <= k < |s| ==> Listing(s)[k + 1] == "- " + s[k].name
  {
    forall k | 0 <= k < |s|
      ensures Listing(s)[k + 1] == "- " + s[k].name
    {
      DeviceLinesAt(s, k);
    }
  }

  /**
    The listing has a line "- n" exactly when some held device is named n.
   */
  lemma ListingNamesHeldDevices(s: seq<Device>, n: string)
    ensures ("- " + n in Listing(s)) <==> exists k :: 0 <= k < |s| && s[k].name == n
  {
    ListingShape(s);
    var line := "- " + n;
    if line in Listing(s) {
      var j :| 0 <= j < |Listing(s)| && Listing(s)[j] == line;
      assert line[0] == '-' && ListingHeader[0] == 'D';
      assert j != 0;
      assert s[j - 1].name == n by {
        assert "- " + s[j - 1].name == line;
        assert ("- " + s[j - 1].name)[2..] == s[j - 1].name;
        assert line[2..] == n;
      }
    }
    if exists k :: 0 <= k < |s| && s[k].name == n {
      var k :| 0 <= k < |s| && s[k].name == n;
      assert Listing(s)[k + 1] == line;
    }
  }

  /** Adding never checks for duplicates: every add gains one more occurrence. */
  lemma AddKeepsDuplicates(s: seq<Device>, d: Device)
    ensures multiset(s + [d])[d] == multiset(s)[d] + 1
    ensures d in s ==> multiset(s + [d])[d] >= 2
  {
  }

  /** A registry of devices, kept in the order they were added. */
  class DeviceManager {
    var devices: seq<Device>

    /** A new manager holds no devices. */
    constructor ()
      ensures devices == []
    {
      devices := [];
    }

    /**
      Appends `d`, even when it is already held, and reports the addition.
     */
    method AddDevice(d: Device) returns (line: string)
      modifies this
      ensures devices == old(devices) + [d]
      ensures line == AddedMessage(d)
    {
      devices := devices + [d];
      line := AddedMessage(d);
    }

    /**
      Removes the first occurrence of `d`; when `d` is not held nothing
      changes. The removal is reported in either case.
     */
    method RemoveDevice(d: Device) returns (line: string)
      modifies this
      ensures devices == RemoveFirst(old(devices), d)
      ensures d !in old(devices) ==> devices == old(devices)
      ensures d in old(devices) ==>
        devices == old(devices)[..IndexOf(old(devices), d)] + old(devices)[IndexOf(old(devices), d) + 1..]
      ensures multiset(devices) == multiset(old(devices)) - multiset{d}
      ensures line == RemovedMessage(d)
    {
      RemoveFirstMultiset(devices, d);
      if d in devices {
        RemoveFirstDeletesFirstOccurrence(devices, d, IndexOf(devices, d));
      }
      devices := RemoveFirst(devices, d);
      line := RemovedMessage(d);
    }

    /**
      Writes the header and then one line per device, in insertion order;
      the registry is left as it was.
     */
    method ListDevices() returns (lines: seq<string>)
      ensures lines == Listing(devices)
    {
      lines := [ListingHeader];
      for i := 0 to |devices|
        invariant lines == Listing(devices[..i])
      {
        assert devices[..i + 1][..i] == devices[..i];
        lines := lines + [DeviceLine(devices[i])];
      }
      assert devices[..|devices|] == devices;
    }
  }

  /** The factory: a fresh, empty manager. */
  method CreateDeviceManager() returns (m: DeviceManager)
    ensures fresh(m)
    ensures m.devices == []
  {
    m := new DeviceManager();
  }
}
