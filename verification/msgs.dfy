/** The ROS message records the bridge reads and writes: the
    geometry_msgs/PoseStamped it subscribes to and the
    geometry_msgs/TransformStamped it broadcasts. Coordinates are only ever
    copied from one record to the other, never computed on, so they are
    modelled as `real`. */
module GeometryMsgs {

  /** A ROS time stamp: seconds and nanoseconds. */
  datatype Time = Time(sec: nat, nsec: nat)

  /** std_msgs/Header without its sequence number, which the bridge never sets. */
  datatype Header = Header(stamp: Time, frameId: string)

  datatype Point = Point(x: real, y: real, z: real)

  datatype Quaternion = Quaternion(x: real, y: real, z: real, w: real)

  datatype Pose = Pose(position: Point, orientation: Quaternion)

  datatype PoseStamped = PoseStamped(header: Header, pose: Pose)

  datatype Vector3 = Vector3(x: real, y: real, z: real)

  datatype Transform = Transform(translation: Vector3, rotation: Quaternion)

  datatype TransformStamped = TransformStamped(header: Header, childFrameId: string, transform: Transform)

  /** What a default-constructed TransformStamped holds: every number zero
      (the quaternion included) and every string empty. */
  const EmptyTransformStamped: TransformStamped :=
    TransformStamped(
      Header(Time(0, 0), ""),
      "",
      Transform(Vector3(0.0, 0.0, 0.0), Quaternion(0.0, 0.0, 0.0, 0.0)))
}
