/**
 * Results of calls into third-party decoders (iText, PdfSharpCore,
 * OpenXml, ClosedXML, Tesseract) and the file system: either what the call
 * returned or the fact that it threw.
 */
module Outcomes {

  datatype Outcome<+T> = Decoded(value: T) | Threw

  /** The values of a sequence of outcomes, or `Threw` as soon as one of them threw. */
  function CollectAll<T>(xs: seq<Outcome<T>>): (r: Outcome<seq<T>>)
    ensures r.Decoded? <==> forall i :: 0 <= i < |xs| ==> xs[i].Decoded?
    ensures r.Decoded? ==> |r.value| == |xs| && forall i :: 0 <= i < |xs| ==> r.value[i] == xs[i].value
  {
    if xs == [] then Decoded([])
    else
      var n := |xs| - 1;
      var front := CollectAll(xs[..n]);
      if front.Threw? || xs[n].Threw? then Threw else Decoded(front.value + [xs[n].value])
  }

  /** Outcomes that all succeeded, with the given values. */
  function AllDecoded<T>(xs: seq<T>): (r: seq<Outcome<T>>)
    ensures |r| == |xs|
  {
    seq(|xs|, i requires 0 <= i < |xs| => Decoded(xs[i]))
  }

  lemma {:induction false} AllDecodedCollects<T>(xs: seq<T>)
    ensures CollectAll(AllDecoded(xs)) == Decoded(xs)
  {
    if xs != [] {
      var n := |xs| - 1;
      assert AllDecoded(xs)[..n] == AllDecoded(xs[..n]);
      AllDecodedCollects(xs[..n]);
      assert xs[..n] + [xs[n]] == xs;
    }
  }
}
