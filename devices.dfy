/**
 * Which devices are offered as write targets, and how the mount state of
 * the selected one enables either the Start button or the Unmount button.
 */
module Devices {
  import opened Wrappers
  import opened Text

  /** `c.isdigit()` for one character, restricted to the ASCII digits. */
  predicate IsDigit(c: char)
  {
    '0' <= c <= '9'
  }

  /** The test of the list comprehension in `refresh_devices`: the entry name
      starts with "sd" and its last character is not a digit (a whole disk,
      not one of its partitions). */
  predicate IsDiskName(d: string)
  {
    StartsWith(d, "sd") && !IsDigit(d[|d| - 1])
  }

  /** `["/dev/" + d for d in entries if IsDiskName(d)]`, over the names
      `os.listdir("/dev")` returned, in that order. */
  function Candidates(entries: seq<string>): (devices: seq<string>)
    ensures |devices| <= |entries|
    ensures forall k :: 0 <= k < |devices| ==>
              StartsWith(devices[k], "/dev/sd") && !IsDigit(devices[k][|devices[k]| - 1])
  {
    if entries == [] then []
    else
      var d := entries[0];
      var rest := Candidates(entries[1..]);
      if IsDiskName(d) then
        assert StartsWith("/dev/" + d, "/dev/sd") by { assert ("/dev/" + d)[..7] == "/dev/" + d[..2]; }
        ["/dev/" + d] + rest
      else rest
  }

  /** "/dev/" + d is offered exactly when `d` is a listed disk name. */
  lemma {:induction false} CandidatesMembership(entries: seq<string>, d: string)
    ensures "/dev/" + d in Candidates(entries) <==> d in entries && IsDiskName(d)
  {
    if entries != [] {
      CandidatesMembership(entries[1..], d);
      var e := entries[0];
      if "/dev/" + e == "/dev/" + d {
        assert e == ("/dev/" + e)[5..] == ("/dev/" + d)[5..] == d;
      }
      assert entries == [e] + entries[1..];
    }
  }

  /** The listing order is kept: the candidates of a concatenation are the
      candidates of each part, one after the other. */
  lemma {:induction false} CandidatesAppend(a: seq<string>, b: seq<string>)
    ensures Candidates(a + b) == Candidates(a) + Candidates(b)
  {
    if a == [] {
      assert a + b == b;
    } else {
      assert (a + b)[0] == a[0] && (a + b)[1..] == a[1..] + b;
      CandidatesAppend(a[1..], b);
    }
  }

  /** `get_mounted_partitions`: the `lsblk -n -o MOUNTPOINT` output counts as
      "mounted" when something other than whitespace is left after stripping. */
  function HasMounts(mountOutput: string): (mounted: bool)
    ensures mounted <==> exists i :: 0 <= i < |mountOutput| && !IsSpace(mountOutput[i])
  {
    StripEmptyIff(mountOutput);
    Strip(mountOutput) != []
  }

  /** The enabled states of the two buttons the mount state governs. */
  datatype Buttons = Buttons(startEnabled: bool, unmountEnabled: bool)

  /** The button gating at the end of `update_dev_capacity`, for the combo's
      current text and the mountpoint listing of that device. None when the
      text is blank: the method returns early and changes nothing. */
  function UpdateButtons(deviceText: string, mountOutput: string): (r: Option<Buttons>)
    ensures r.None? <==> AllSpace(deviceText)
    ensures r.Some? ==> (r.value.startEnabled <==> !r.value.unmountEnabled)
    ensures r.Some? ==> (r.value.unmountEnabled <==> exists i :: 0 <= i < |mountOutput| && !IsSpace(mountOutput[i]))
  {
    StripEmptyIff(deviceText);
    if Strip(deviceText) == [] then None
    else
      var mounted := HasMounts(mountOutput);
      Some(Buttons(!mounted, mounted))
  }

  /** What `refresh_devices` leaves behind: the combo's items and, when the
      list is non-empty, the buttons as set for its first (current) entry. */
  datatype Listing = Listing(devices: seq<string>, buttons: Option<Buttons>)

  /** `refresh_devices`, given the `/dev` entry names and the mountpoint
      listing of the first candidate. */
  function RefreshDevices(entries: seq<string>, firstMountOutput: string): (r: Listing)
    ensures r.devices == Candidates(entries)
    ensures forall d :: "/dev/" + d in r.devices <==> d in entries && IsDiskName(d)
    ensures r.buttons.Some? <==> r.devices != []
    ensures r.buttons.Some? ==> r.buttons.value.unmountEnabled == HasMounts(firstMountOutput)
                                && r.buttons.value.startEnabled == !HasMounts(firstMountOutput)
    ensures r.buttons == (if r.devices == [] then None else UpdateButtons(r.devices[0], firstMountOutput))
  {
    var devices := Candidates(entries);
    forall d ensures "/dev/" + d in devices <==> d in entries && IsDiskName(d) {
      CandidatesMembership(entries, d);
    }
    if devices == [] then Listing(devices, None)
    else
      assert !IsSpace(devices[0][0]) by { assert StartsWith(devices[0], "/dev/sd"); }
      Listing(devices, UpdateButtons(devices[0], firstMountOutput))
  }
}
