/** The stateful part of `doPose`: the function-static broadcaster, built on
    the first callback and reused afterwards, and the one record every
    callback sends through it. */
module Broadcast {
  import opened GeometryMsgs
  import opened Params
  import opened Encoder

  /** tf2_ros::TransformBroadcaster, seen only through the records it has
      been asked to send, in order. */
  class TransformBroadcaster {
    var sent: seq<TransformStamped>

    constructor ()
      ensures sent == []
    {
      sent := [];
    }

    method SendTransform(tfs: TransformStamped)
      modifies this
      ensures sent == old(sent) + [tfs]
    {
      sent := sent + [tfs];
    }
  }

  /** One callback invocation: the sample, the parameter server at that
      moment and the clock reading. */
  datatype Delivery = Delivery(msg: PoseStamped, params: ParamServer, now: Time)

  function EncodeDelivery(d: Delivery): TransformStamped
  {
    EncodePose(d.msg, d.params, d.now)
  }

  /** The records a run of callbacks sends, one per delivery, in arrival order. */
  function Replay(deliveries: seq<Delivery>): (records: seq<TransformStamped>)
    ensures |records| == |deliveries|
  {
    if deliveries == [] then []
    else Replay(deliveries[..|deliveries| - 1]) + [EncodeDelivery(deliveries[|deliveries| - 1])]
  }

  /** Record i is the encoding of delivery i. */
  lemma {:induction false} ReplayAt(deliveries: seq<Delivery>, i: nat)
    requires i < |deliveries|
    ensures Replay(deliveries)[i] == EncodeDelivery(deliveries[i])
  {
    if i < |deliveries| - 1 {
      ReplayAt(deliveries[..|deliveries| - 1], i);
    }
  }

  /** Two runs back to back send the first run's records and then the
      second's: nothing is reordered, merged or dropped. */
  lemma {:induction false} ReplayConcat(a: seq<Delivery>, b: seq<Delivery>)
    ensures Replay(a + b) == Replay(a) + Replay(b)
  {
    if b == [] {
      assert a + b == a;
    } else {
      var b' := b[..|b| - 1];
      assert (a + b)[..|a + b| - 1] == a + b';
      assert (a + b)[|a + b| - 1] == b[|b| - 1];
      ReplayConcat(a, b');
    }
  }

  /** Every record of a run hangs from the world frame and carries the
      clock reading of its own callback. */
  lemma ReplayFromWorld(deliveries: seq<Delivery>)
    ensures forall i :: 0 <= i < |deliveries| ==>
              Replay(deliveries)[i].header.frameId == WorldFrame
              && Replay(deliveries)[i].header.stamp == deliveries[i].now
  {
  }

  /** The callback `doPose` together with its function-static broadcaster,
      which is null until the first callback constructs it. */
  class PoseBridge {
    var broadcaster: TransformBroadcaster?
    ghost var deliveries: seq<Delivery>
    ghost var Repr: set<object>

    /** No callback has run while the broadcaster is unbuilt; once built it
        has sent exactly the records of the callbacks so far. */
    ghost predicate Valid()
      reads this, Repr
    {
      && this in Repr
      && (broadcaster == null ==> Repr == {this} && deliveries == [])
      && (broadcaster != null ==> Repr == {this, broadcaster} && broadcaster.sent == Replay(deliveries))
    }

    /** Everything sent so far. */
    ghost function Sent(): seq<TransformStamped>
      requires Valid()
      reads this, Repr
    {
      if broadcaster == null then [] else broadcaster.sent
    }

    /** The process before its first callback. */
    constructor ()
      ensures Valid() && fresh(Repr)
      ensures broadcaster == null && deliveries == []
    {
      broadcaster := null;
      deliveries := [];
      Repr := {this};
    }

    /** The static local's initialisation: construct on first use, and
        hand back the same instance on every later call. */
    method EnsureBroadcaster() returns (b: TransformBroadcaster)
      requires Valid()
      modifies this
      ensures Valid() && fresh(Repr - old(Repr))
      ensures b == broadcaster && b in Repr && deliveries == old(deliveries)
      ensures old(broadcaster) != null ==> b == old(broadcaster)
      ensures old(broadcaster) == null ==> fresh(b)
      ensures Sent() == old(Sent())
    {
      if broadcaster == null {
        broadcaster := new TransformBroadcaster();
        Repr := Repr + {broadcaster};
      }
      b := broadcaster;
    }

    /** One callback: build the record field by field and send it once. */
    method DoPose(msg: PoseStamped, params: ParamServer, now: Time)
      requires Valid()
      modifies Repr
      ensures Valid() && fresh(Repr - old(Repr))
      ensures broadcaster != null
      ensures old(broadcaster) != null ==> broadcaster == old(broadcaster)
      ensures old(broadcaster) == null ==> fresh(broadcaster)
      ensures deliveries == old(deliveries) + [Delivery(msg, params, now)]
      ensures Sent() == old(Sent()) + [EncodePose(msg, params, now)]
    {
      var b := EnsureBroadcaster();
      var tfs := EmptyTransformStamped;
      tfs := tfs.(header := tfs.header.(frameId := WorldFrame));
      tfs := tfs.(header := tfs.header.(stamp := now));
      var uavName := UavName(params);
      tfs := tfs.(childFrameId := uavName);
      var translation := tfs.transform.translation;
      translation := translation.(x := msg.pose.position.x);
      translation := translation.(y := msg.pose.position.y);
      translation := translation.(z := msg.pose.position.z);
      var rotation := tfs.transform.rotation;
      rotation := rotation.(x := msg.pose.orientation.x);
      rotation := rotation.(y := msg.pose.orientation.y);
      rotation := rotation.(z := msg.pose.orientation.z);
      rotation := rotation.(w := msg.pose.orientation.w);
      tfs := tfs.(transform := Transform(translation, rotation));
      assert tfs == EncodePose(msg, params, now);
      b.SendTransform(tfs);
      ghost var d := Delivery(msg, params, now);
      assert (deliveries + [d])[..|deliveries|] == deliveries;
      deliveries := deliveries + [d];
    }
  }

  /** Two callbacks with the sample at (1, 2, 0) for "drone1": one broadcaster is
      built and reused, and the log holds both records in order. */
  method TwoCallbacks(h: Header, t1: Time, t2: Time) returns (sent: seq<TransformStamped>)
    ensures |sent| == 2
    ensures sent[0] == TransformStamped(Header(t1, "world"), "drone1",
                                        Transform(Vector3(1.0, 2.0, 0.0), Quaternion(0.0, 0.0, 0.0, 1.0)))
    ensures sent[1] == sent[0].(header := sent[0].header.(stamp := t2))
  {
    var msg := PoseStamped(h, Pose(Point(1.0, 2.0, 0.0), Quaternion(0.0, 0.0, 0.0, 1.0)));
    var params := map[UavNameKey := "drone1"];
    var bridge := new PoseBridge();
    bridge.DoPose(msg, params, t1);
    var first := bridge.broadcaster;
    bridge.DoPose(msg, params, t2);
    assert bridge.broadcaster == first;
    sent := bridge.broadcaster.sent;
  }
}
