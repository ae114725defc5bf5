/**
 * The last safeguard before a write: `confirm_destructive_write` shows the
 * target device, its partition layout, its SMART identity when smartctl
 * gives one, and the image path, and goes ahead only on an explicit OK.
 */
module Confirmation {
  import opened Wrappers
  import opened Text

  /** `get_lsblk_info`: the stripped output of `lsblk <device>`. */
  function LayoutInfo(lsblkOutput: string): (r: string)
    ensures exists i, j :: 0 <= i <= j <= |lsblkOutput| && r == lsblkOutput[i..j]
                           && AllSpace(lsblkOutput[..i]) && AllSpace(lsblkOutput[j..])
    ensures r == [] || (!IsSpace(r[0]) && !IsSpace(r[|r| - 1]))
  {
    StripSlice(lsblkOutput);
    Strip(lsblkOutput)
  }

  /** `get_smart_info`: None when smartctl is not on the PATH, otherwise the
      stripped output of `smartctl -i <device>`. */
  function SmartInfo(onPath: set<string>, smartctlOutput: string): (r: Option<string>)
    ensures r.None? <==> "smartctl" !in onPath
    ensures r.Some? ==> exists i, j :: 0 <= i <= j <= |smartctlOutput| && r.value == smartctlOutput[i..j]
                                       && AllSpace(smartctlOutput[..i]) && AllSpace(smartctlOutput[j..])
    ensures r.Some? ==> r.value == [] || (!IsSpace(r.value[0]) && !IsSpace(r.value[|r.value| - 1]))
  {
    StripSlice(smartctlOutput);
    if "smartctl" !in onPath then None else Some(Strip(smartctlOutput))
  }

  /** Python truthiness of the SMART result: present and not empty. */
  predicate Truthy(info: Option<string>)
  {
    info.Some? && info.value != []
  }

  const SmartHeading: string := "\nSMART Info:\n"

  /** The text around the SMART section: what `smart_text` is in the program. */
  function SmartText(smart: Option<string>): (r: string)
    ensures r == [] <==> !Truthy(smart)
    ensures Truthy(smart) ==> |r| == |SmartHeading| + |smart.value|
                              && r[..|SmartHeading|] == SmartHeading && r[|SmartHeading|..] == smart.value
  {
    if Truthy(smart) then SmartHeading + smart.value else ""
  }

  /** The fixed wording of the warning, around the device, layout and image. */
  const Opening: string := "WARNING: DESTRUCTIVE OPERATION\n\nTarget device: "
  const LayoutHeading: string := "\n\nPartition layout:\n"
  const ImageHeading: string := "\n\nImage: "
  const Closing: string := "\n\nClick OK to continue."

  /** The first two pieces of `x + y + z` sit at its front. */
  lemma HeadSlices(x: string, y: string, z: string)
    ensures x <= x + y + z && (x + y + z)[|x|..|x| + |y|] == y
  {
    assert x + y + z == x + (y + z);
    assert (y + z)[..|y|] == y;
  }

  /** The last two pieces of `x + y + z` sit at its end. */
  lemma TailSlices(x: string, y: string, z: string)
    ensures var m := x + y + z;
            m[|m| - |z|..] == z && m[|m| - |z| - |y|..|m| - |z|] == y
  {
    var m := x + y + z;
    assert m[|x|..] == y + z;
    assert m[|x|..][..|y|] == m[|x|..|x| + |y|];
  }

  /** Where the pieces sit in text shaped like the message (the letters as
      in ShapeContains): `a` and `d` open it, `i` and `e` close it, and the
      length is the sum of the pieces. */
  lemma {:induction false} ShapeSlices(m: string, a: string, d: string, b: string, l: string, s: string,
                                       c: string, i: string, e: string)
    requires m == a + d + (b + l + (s + (c + i + e)))
    ensures |m| == |a| + |d| + |b| + |l| + |s| + |c| + |i| + |e|
    ensures a <= m
    ensures m[|a|..|a| + |d|] == d
    ensures m[|m| - |e|..] == e
    ensures m[|m| - |e| - |i|..|m| - |e|] == i
  {
    var rest := b + l + (s + (c + i + e));
    HeadSlices(a, d, rest);
    assert a + d + rest == (a + d + b + l + s + c) + i + e;
    TailSlices(a + d + b + l + s + c, i, e);
  }

  /** The warning text of lines 206-213 of the program (adjacent literals
      joined), grouped from the right. It opens with the warning and the
      device, ends with the image and the instruction to click OK, and
      holds nothing but its parts. */
  function Message(device: string, layout: string, smart: Option<string>, image: string): (m: string)
    ensures Opening <= m
    ensures m[|m| - |Closing|..] == Closing
    ensures |m| == |Opening| + |device| + |LayoutHeading| + |layout| + |SmartText(smart)|
                   + |ImageHeading| + |image| + |Closing|
    ensures m[|Opening|..|Opening| + |device|] == device
    ensures m[|m| - |Closing| - |image|..|m| - |Closing|] == image
  {
    var section := SmartText(smart);
    var m := Opening + device + (LayoutHeading + layout + (section + (ImageHeading + image + Closing)));
    ShapeSlices(m, Opening, device, LayoutHeading, layout, section, ImageHeading, image, Closing);
    m
  }

  /** Occurrences in text shaped like the message, over arbitrary pieces:
      `d`, `l`, `s` and `i` stand for the device, layout, SMART and image
      parts, the others for the fixed wording between them. */
  lemma {:induction false} ShapeContains(a: string, d: string, b: string, l: string, s: string,
                                         c: string, i: string, e: string)
    ensures var m := a + d + (b + l + (s + (c + i + e)));
            Contains(m, d) && Contains(m, l) && Contains(m, s) && Contains(m, i)
  {
    var m := a + d + (b + l + (s + (c + i + e)));
    assert m == a + d + (b + l + s + c + i + e);
    ContainsMiddle(a, d, b + l + s + c + i + e);
    assert m == (a + d + b) + l + (s + c + i + e);
    ContainsMiddle(a + d + b, l, s + c + i + e);
    assert m == (a + d + b + l) + s + (c + i + e);
    ContainsMiddle(a + d + b + l, s, c + i + e);
    assert m == (a + d + b + l + s + c) + i + e;
    ContainsMiddle(a + d + b + l + s + c, i, e);
  }

  /** The disclosure is complete: the device, the whole layout text and the
      image path always appear, and the SMART text appears under its heading
      whenever it is truthy. */
  lemma MessageDiscloses(device: string, layout: string, smart: Option<string>, image: string)
    ensures var m := Message(device, layout, smart, image);
            Contains(m, device) && Contains(m, layout) && Contains(m, image)
            && (Truthy(smart) ==> Contains(m, SmartHeading + smart.value))
  {
    ShapeContains(Opening, device, LayoutHeading, layout, SmartText(smart),
                  ImageHeading, image, Closing);
  }

  /** SMART output that is missing or empty adds nothing to the message. */
  lemma {:induction false} FalsySmartAddsNothing(device: string, layout: string, smart: Option<string>, image: string)
    requires !Truthy(smart)
    ensures Message(device, layout, smart, image) == Message(device, layout, None, image)
  {
  }

  /** The buttons of the dialog. */
  datatype Button = Ok | Cancel

  /** How the operator can end the dialog. */
  datatype Interaction = Clicked(button: Button) | EnterPressed | EscapePressed | WindowClosed

  /** The default button (what Enter picks) is Cancel. */
  const DefaultButton: Button := Cancel

  /** The button `QMessageBox.warning` reports: the one clicked, the default
      one on Enter, and Cancel (the escape button of an Ok/Cancel box) when
      the dialog is escaped or closed. */
  function Reply(i: Interaction): Button
  {
    match i
    case Clicked(b) => b
    case EnterPressed => DefaultButton
    case EscapePressed => Cancel
    case WindowClosed => Cancel
  }

  /** What the dialog showed and whether the write may go ahead. */
  datatype Verdict = Verdict(message: string, accepted: bool)

  /** `confirm_destructive_write` for `device` and `image`, given the outputs
      of `lsblk` and `smartctl` and what the operator did. */
  function ConfirmDestructiveWrite(device: string, image: string, lsblkOutput: string,
                                   onPath: set<string>, smartctlOutput: string,
                                   interaction: Interaction): (v: Verdict)
    ensures v.accepted <==> interaction == Clicked(Ok)
    ensures v.message == Message(device, LayoutInfo(lsblkOutput), SmartInfo(onPath, smartctlOutput), image)
  {
    var layout := LayoutInfo(lsblkOutput);
    var smart := SmartInfo(onPath, smartctlOutput);
    Verdict(Message(device, layout, smart, image), Reply(interaction) == Ok)
  }
}
