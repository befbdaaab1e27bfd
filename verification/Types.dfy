/** Values shared by the frame pipeline, the message-bus client and the post-processing code. */
module Types {

  datatype Option<+T> = None | Some(value: T)

  /** A C++ `unsigned`: the key type of every per-source map. */
  type SourceId = x: int | 0 <= x < 0x1_0000_0000

  /** A `std::shared_ptr` to an image: it may be null, and two live frames have two tags. */
  datatype Frame = Null | Image(tag: nat)

  datatype Rect = Rect(x: int, y: int, width: int, height: int)

  datatype Detection = Detection(classId: nat, className: string, confidence: real, color: int, box: Rect)

  /** What one call of the network does: it returns detections or it throws. */
  datatype Outcome = Detected(found: seq<Detection>) | Thrown
}
