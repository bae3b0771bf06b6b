/** Values exchanged between the two engines and the OpenCV calls they make.
    OpenCV itself is not modelled: its calls appear as function-valued
    parameters that return a `Result`, whose `Err` case stands for a thrown
    `cv::Exception`.
 */
module CvTypes {

  /** A `cv::Exception`, identified by its OpenCV status code. */
  datatype CvException = CvException(code: int)

  /** Outcome of one OpenCV call: its outputs, or the exception it threw. */
  datatype Result<+T> = Ok(value: T) | Err(error: CvException)

  /** Outcome of one engine method: it either returns normally or lets an
      exception escape; either way `state` is the engine as it was left. */
  datatype Outcome<+S> = Returned(state: S) | Raised(state: S, error: CvException)

  /** `cv::KeyPoint`: location, scale, orientation, response and octave. */
  datatype KeyPoint = KeyPoint(x: real, y: real, size: real, angle: real,
                               response: real, octave: int, classId: int)

  /** `cv::DMatch`: query row, train row and the distance between them. The
      `imgIdx` field is left out: the engines copy matches whole and never
      read or set it. */
  datatype DMatch = DMatch(queryIdx: int, trainIdx: int, distance: real)
}
