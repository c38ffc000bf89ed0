/**
 * The conversion of the engine's clip arrays into the `VideoCombined` value that a
 * completed session hands to its listener (`videosToCombined` in
 * RotatedBuffersSessionWriter.kt).  The element types are left generic: the clip records
 * (`VideoClip`, `VideoClipPro`) and what they map to are not part of this model, and the
 * per-element mappers `mapToTelemetry` / `mapToVisionPro` are passed in as functions.
 */
module VideoCombining {
  import opened Optional

  /** `VideoCombined(telemetries, visionPros)`: both arrays are nullable. */
  datatype VideoCombined<T, V> = VideoCombined(telemetries: Option<seq<T>>, visionPros: Option<seq<V>>)

  /** Kotlin's `Array.map`: one output per input, in the same order. */
  function MapAll<A, B>(f: A -> B, xs: seq<A>): (ys: seq<B>)
    ensures |ys| == |xs|
    ensures forall i :: 0 <= i < |xs| ==> ys[i] == f(xs[i])
  {
    if xs == [] then [] else [f(xs[0])] + MapAll(f, xs[1..])
  }

  /** Kotlin's `ifEmpty { null }` on an array. */
  function NullIfEmpty<B>(ys: seq<B>): (r: Option<seq<B>>)
    ensures r == None <==> ys == []
    ensures r.Some? ==> r.value == ys
  {
    if ys == [] then None else Some(ys)
  }

  /**
   * Each array is converted independently: an empty one becomes absent, a non-empty one
   * becomes the element-wise image of the input, of the same length and in the same order.
   */
  function VideosToCombined<C, P, T, V>(clips: seq<C>, clipsPro: seq<P>, toTelemetry: C -> T, toPro: P -> V)
    : (r: VideoCombined<T, V>)
    ensures r.telemetries == None <==> clips == []
    ensures r.telemetries.Some? ==>
              |r.telemetries.value| == |clips| &&
              forall i :: 0 <= i < |clips| ==> r.telemetries.value[i] == toTelemetry(clips[i])
    ensures r.visionPros == None <==> clipsPro == []
    ensures r.visionPros.Some? ==>
              |r.visionPros.value| == |clipsPro| &&
              forall i :: 0 <= i < |clipsPro| ==> r.visionPros.value[i] == toPro(clipsPro[i])
  {
    VideoCombined(NullIfEmpty(MapAll(toTelemetry, clips)), NullIfEmpty(MapAll(toPro, clipsPro)))
  }
}
