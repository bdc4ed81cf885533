/**
 * `process_and_send_all`: every downloaded image is stripped of its
 * background, resized, centred and pasted onto its own copy of the template,
 * and collected, in input order, as a PNG named `result_<position>.png`.
 */
module Batch {
  import opened PyStr
  import opened Layout

  /** The raw bytes of one downloaded image (one entry of `message.photo`). */
  type Bytes = seq<bv8>

  /** One processed image: its file name and the composite it holds. */
  datatype Output = Output(name: string, picture: Composite)

  /** The output size used by the photo handler (`size=1200`). */
  const DefaultSize: nat := 1200

  /** `f"result_{n}.png"`. */
  function ResultName(n: nat): (s: string)
    ensures StartsWith(s, "result_") && |s| >= |"result_.png"|
    ensures s[|"result_"|..|s| - |".png"|] == NatToString(n) && s[|s| - |".png"|..] == ".png"
  {
    var s := "result_" + NatToString(n) + ".png";
    assert s[..7] == "result_";
    s
  }

  /** Different positions get different file names. */
  lemma ResultNameInjective(m: nat, n: nat)
    requires ResultName(m) == ResultName(n)
    ensures m == n
  {
    NatToStringInjective(m, n);
  }

  /** The output for the photo at position `i` (0-based) of a batch. */
  function Render(image: Bytes, i: nat, template: Size, remove: Bytes -> Cutout, scaleBy: string, size: nat): Output
  {
    Output(ResultName(i + 1), Compose(remove(image), template, scaleBy, size))
  }

  /**
   * The loop of `process_and_send_all`. The template is loaded once from
   * `files` and never changed; each output is built on a copy of it, so
   * output `i` is a function of input `i` and the template alone. There is
   * exactly one output per input, in input order, and no two share a name.
   */
  method ProcessAll(images: seq<Bytes>, templatePath: string, files: map<string, Size>,
                    remove: Bytes -> Cutout, scaleBy: string, size: nat)
    returns (processed: seq<Output>)
    requires templatePath in files
    ensures |processed| == |images|
    ensures forall i :: 0 <= i < |images| ==>
      processed[i] == Render(images[i], i, files[templatePath], remove, scaleBy, size)
    ensures forall i, j :: 0 <= i < j < |processed| ==> processed[i].name != processed[j].name
  {
    processed := [];
    var template := files[templatePath];
    for i := 0 to |images|
      invariant |processed| == i
      invariant forall k :: 0 <= k < i ==>
        processed[k] == Render(images[k], k, template, remove, scaleBy, size)
    {
      var removed := remove(images[i]);
      var resized := ResizedSize(removed, scaleBy, size);
      var x := CentreOffset(template.width, resized.width);
      var y := CentreOffset(template.height, resized.height);
      var templateCopy := Composite(template, Layer(x, y, resized));
      processed := processed + [Output(ResultName(i + 1), templateCopy)];
    }
    forall i, j | 0 <= i < j < |processed| ensures processed[i].name != processed[j].name {
      if processed[i].name == processed[j].name {
        ResultNameInjective(i + 1, j + 1);
      }
    }
  }
}
