/**
 The data the photogrammetry engine hands back to the application: its
 reconstruction results and the typed outputs of its session stream. The
 engine itself is not modelled; these are the shapes of its messages.
 */
module Engine {
  import opened Geometry

  /** An unsigned 8-bit colour channel. */
  newtype byte = x: int | 0 <= x < 256

  /** A point colour with four 8-bit channels. */
  datatype Rgba8 = Rgba8(x: byte, y: byte, z: byte, w: byte)

  datatype CloudPoint = CloudPoint(position: Vec3, color: Rgba8)

  /** The reconstructed point cloud, in the engine's order. */
  datatype PointCloud = PointCloud(points: seq<CloudPoint>)

  datatype Pose = Pose(translation: Vec3, rotation: Rotation)

  /** Camera poses keyed by input-sample index, with each sample's image path. */
  datatype Poses = Poses(posesBySample: map<nat, Pose>, urlsBySample: map<nat, string>)

  /** The payload of a `requestComplete` output. `OtherResult` stands for every
      other kind of result (a model file, for one). */
  datatype RequestResult =
    | BoundsResult(box: Box)
    | PointCloudResult(cloud: PointCloud)
    | PosesResult(poses: Poses)
    | OtherResult

  /** One output of the session stream; `UnknownOutput` stands for cases added
      to the engine after this application was written. */
  datatype Output =
    | InputComplete
    | ProcessingComplete
    | ProcessingCancelled
    | RequestProgress(fractionComplete: real)
    | RequestComplete(result: RequestResult)
    | RequestError
    | InvalidSample
    | AutomaticDownsampling
    | SkippedSample
    | RequestProgressInfo
    | StitchingIncomplete
    | UnknownOutput

  /** One step of the asynchronous stream: an output, or an error thrown by the
      stream itself. */
  datatype StreamItem = Next(output: Output) | Thrown
}
