/** What the detector hands to the clip pipeline (cloud-ai/app/detector.py). */
module Detections {
  datatype Point = Point(x: real, y: real)

  /** The cue strings the pipeline tells apart: "person", "open_bag", "bag", "product_in_hand",
      "concealment", and any other. */
  datatype Cue = Person | OpenBag | PlainBag | ProductInHand | Hiding | OtherCue(name: string)

  /** The fields of a detection the pipeline reads; an absent embedding is the empty one,
      since the source only tests it for truth. */
  datatype Detection = Detection(cue: Cue, trackId: int, at: Point, conf: real, embedding: seq<real>)

  type Frame = seq<Detection>

  predicate IsTrackedPerson(d: Detection) {
    d.cue == Person && d.trackId >= 0
  }

  /** The mutable object behind a detection: stitching overwrites its track id in place. */
  class DetectionObject {
    const cue: Cue
    var trackId: int
    const at: Point
    const conf: real
    const embedding: seq<real>

    constructor (d: Detection)
      ensures Value() == d
    {
      cue, trackId, at, conf, embedding := d.cue, d.trackId, d.at, d.conf, d.embedding;
    }

    function Value(): Detection
      reads this`trackId
    {
      Detection(cue, trackId, at, conf, embedding)
    }
  }
}
