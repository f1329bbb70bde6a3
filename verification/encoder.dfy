/** The pure part of `doPose`: how one pose sample, the parameter server
    and the publication time become one transform record. */
module Encoder {
  import opened GeometryMsgs
  import opened Params

  /** The parent frame of every record the bridge publishes. */
  const WorldFrame := "world"

  /** The pose a transform carries, read back field by field. */
  function PoseOfTransform(t: Transform): Pose
  {
    Pose(Point(t.translation.x, t.translation.y, t.translation.z), t.rotation)
  }

  /** The record `doPose` broadcasts for `msg` when the parameter server
      holds `params` and the clock reads `now`. */
  function EncodePose(msg: PoseStamped, params: ParamServer, now: Time): (tfs: TransformStamped)
    ensures tfs.header.frameId == WorldFrame
    ensures tfs.header.stamp == now
    ensures tfs.childFrameId == UavName(params)
    ensures PoseOfTransform(tfs.transform) == msg.pose
  {
    var p := msg.pose.position;
    var q := msg.pose.orientation;
    TransformStamped(
      Header(now, WorldFrame),
      UavName(params),
      Transform(Vector3(p.x, p.y, p.z), Quaternion(q.x, q.y, q.z, q.w)))
  }

  /** The record depends on the sample only through its pose: the input's
      own stamp and frame id are dropped, and two samples give the same
      record exactly when their poses are equal. */
  lemma EncodeDeterminedByPose(m1: PoseStamped, m2: PoseStamped, params: ParamServer, now: Time)
    ensures EncodePose(m1, params, now) == EncodePose(m2, params, now) <==> m1.pose == m2.pose
  {
  }

  /** Nothing is normalised or rejected: every transform is the encoding
      of some pose, whatever stamp and frame id that sample carries. */
  lemma EncodeReachesEveryTransform(t: Transform, h: Header, params: ParamServer, now: Time)
    ensures EncodePose(PoseStamped(h, PoseOfTransform(t)), params, now).transform == t
  {
  }

  /** The child frame is looked up at each call: two calls see the same
      child frame exactly when the parameter yields the same name. */
  lemma ChildFrameFollowsParam(msg: PoseStamped, p1: ParamServer, p2: ParamServer, now: Time)
    ensures EncodePose(msg, p1, now).childFrameId == EncodePose(msg, p2, now).childFrameId
        <==> UavName(p1) == UavName(p2)
  {
  }

  /** A zero quaternion is carried through verbatim. */
  lemma ZeroQuaternionPassesThrough(h: Header, position: Point, params: ParamServer, now: Time)
    ensures EncodePose(PoseStamped(h, Pose(position, Quaternion(0.0, 0.0, 0.0, 0.0))), params, now).transform.rotation
         == Quaternion(0.0, 0.0, 0.0, 0.0)
  {
  }

  /** A sample at (1, 2, 0) with identity orientation, published for the
      agent "drone1", and the same sample with the parameter unset. */
  lemma DroneOneScenario(h: Header, now: Time)
    ensures var msg := PoseStamped(h, Pose(Point(1.0, 2.0, 0.0), Quaternion(0.0, 0.0, 0.0, 1.0)));
            && EncodePose(msg, map[UavNameKey := "drone1"], now)
               == TransformStamped(Header(now, "world"), "drone1",
                                   Transform(Vector3(1.0, 2.0, 0.0), Quaternion(0.0, 0.0, 0.0, 1.0)))
            && EncodePose(msg, map[], now).childFrameId == "/none"
  {
  }
}
