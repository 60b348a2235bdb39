/** Value types shared by every part of the vision server model. */
module Common {

  /** One octet of an uploaded JPEG frame. */
  newtype byte = x: int | 0 <= x < 256

  /** A Node `Buffer`: the bytes of one body chunk or of a whole frame. */
  type Bytes = seq<byte>

  /** `null`/`undefined` versus a present value. */
  datatype Option<+T> = None | Some(value: T)

  /** A classifier confidence. The server only copies it, never computes with it. */
  type Score = real

  /** One label as stored, served on `/labels` and broadcast: `{description, score}`. */
  datatype Label = Label(description: string, score: Score)

  /** One entry of the classifier's `labelAnnotations`; the fields the server drops are kept
      so that the projection to `Label` is visible. */
  datatype Annotation = Annotation(mid: string, description: string, score: Score, topicality: Score)
}
