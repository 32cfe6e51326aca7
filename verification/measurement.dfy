/** One timestamped reading from either sensor, as handed to the fusion
    controller. */
module Measurement {
  import opened LinAlg

  /** The sensor tag. `Laser` and `Radar` are the two sensors the controller
      tests for; `Other` stands for any further tag value, which the
      controller's branches let fall through. */
  datatype SensorType = Laser | Radar | Other

  /** A measurement: which sensor, when (in microseconds), and the raw
      reading. A laser reading is (px, py); a radar reading is
      (range, bearing, range rate). */
  datatype MeasurementPackage = MeasurementPackage(
    sensorType: SensorType,
    timestamp: int,
    rawMeasurements: Vector)
}
