# Pose-to-transform bridge of `pub_tf`

`pub_tf` is a ROS node that turns the pose of one UAV, as reported by a
motion-capture client on `/vrpn_client_node/<uav_name>/pose`, into a tf
transform from the fixed `world` frame to a frame named after the UAV. This
project models its core: the callback `doPose`, which builds one
`geometry_msgs/TransformStamped` per incoming `geometry_msgs/PoseStamped` and
sends it through a function-static `tf2_ros::TransformBroadcaster`, and the
expression in `main` that builds the subscribed topic name from the
`uav_name` parameter.

The model has five modules:

- `GeometryMsgs` (msgs.dfy): the message records. Coordinates are `real`
  because they are only copied, never computed on.
- `Params` (params.dfy): the node's private parameter namespace as a
  `map<string, string>`, and `UavName`, the lookup of `uav_name` with the
  default `"/none"`.
- `Encoder` (encoder.dfy): `EncodePose`, the record `doPose` builds, as a
  pure function of the sample, the parameter server and the clock reading.
  `PoseOfTransform` reads a pose back out of a transform. The lemmas state
  that the mapping is a verbatim copy in both directions.
- `Topic` (topic.dfy): `PoseTopic`, the topic name, and `AgentOfTopic`, its
  inverse, with the round trip proved.
- `Broadcast` (broadcast.dfy): the state. `TransformBroadcaster` keeps the
  log of records it was asked to send. `PoseBridge` holds the static
  broadcaster, which is null until the first callback, and a ghost list of
  the callbacks so far. `PoseBridge.DoPose` fills the record one field at a
  time, as the source does, and is proved to send exactly
  `EncodePose(msg, params, now)`. `Replay` is the log a run of callbacks
  produces.

The parameter server and the clock (`ros::Time::now()`) are inputs: each
callback receives the parameter map and the time `now` as arguments.

The agent name is read twice. `main` reads `uav_name` once to build the
subscribed topic (pub_tf.cpp:71-72), and `doPose` reads it again on every
callback (pub_tf.cpp:42-45), so the child frame name is not fixed at
start-up. `DoPose` therefore takes the parameter map of the moment, and
`Encoder.ChildFrameFollowsParam` states that the child frame tracks it.
`Topic.TopicVsLaterChildFrame` states that the agent in the subscribed
topic and the child frame of a later record agree exactly when `uav_name`
gives the same name at both reads.

## Model

| member | source | states |
|---|---|---|
| `Params.UavName` | pub_tf.cpp:42-45 | the agent name is the `uav_name` value when it is set and `"/none"` when it is not |
| `Params.UavNameDependsOnlyOnKey` | pub_tf.cpp:43 | no parameter other than `uav_name` affects the agent name |
| `Params.UavNameSetAndUnset` | pub_tf.cpp:43 | setting `uav_name` to a string yields that string; removing it yields `"/none"` |
| `Encoder.EncodePose` | pub_tf.cpp:37-57 | the record's parent frame is `"world"` for every input, its stamp is the supplied time, its child frame is the agent name, and its transform reads back as exactly the input pose |
| `Encoder.EncodeDeterminedByPose` | pub_tf.cpp:40-57 | two samples give the same record if and only if their poses are equal; the input's own stamp and frame id play no part |
| `Encoder.EncodeReachesEveryTransform` | pub_tf.cpp:48-57 | every transform is produced from some pose, so nothing is normalised or rejected |
| `Encoder.ChildFrameFollowsParam` | pub_tf.cpp:42-45 | two callbacks get the same child frame if and only if the parameter yields the same name at each, so the name is not cached |
| `Encoder.ZeroQuaternionPassesThrough` | pub_tf.cpp:54-57 | a zero quaternion (0, 0, 0, 0) is carried into the record unchanged |
| `Encoder.DroneOneScenario` | pub_tf.cpp:39-57 | the sample at (1, 2, 0) with orientation (0, 0, 0, 1) for `"drone1"` gives the record world → drone1 with that translation and rotation and stamp `now`; with the parameter unset the child frame is `"/none"` |
| `Topic.AgentOfTopic` | pub_tf.cpp:73 | a topic is accepted exactly when it has the `/vrpn_client_node/` prefix and the `/pose` suffix, and an accepted name rebuilds the topic |
| `Topic.TopicRoundTrip` | pub_tf.cpp:73 | reading the agent back out of its pose topic gives the agent name again |
| `Topic.PoseTopicInjective` | pub_tf.cpp:73 | two agent names give the same topic if and only if they are equal |
| `Topic.SubscribedTopic` | pub_tf.cpp:71-73 | the subscribed topic names the agent that `uav_name` gives |
| `Topic.DefaultTopic` | pub_tf.cpp:72-73 | with `uav_name` unset the topic is `"/vrpn_client_node//none/pose"` |
| `Topic.TopicMatchesChildFrame` | pub_tf.cpp:42-73 | under one parameter map, the agent in the subscribed topic is the child frame of every record |
| `Topic.TopicVsLaterChildFrame` | pub_tf.cpp:42-73 | the agent in the topic built from the parameters read in `main` equals the child frame of a record built from the parameters read in a later callback if and only if `uav_name` gives the same name at both reads |
| `Broadcast.TransformBroadcaster.constructor` | pub_tf.cpp:35 | a new broadcaster has sent nothing |
| `Broadcast.TransformBroadcaster.SendTransform` | pub_tf.cpp:61 | sending appends the record to the broadcaster's log and changes nothing else |
| `Broadcast.Replay` | pub_tf.cpp:33-61 | a run of callbacks sends exactly one record per callback |
| `Broadcast.ReplayAt` | pub_tf.cpp:33-61 | record i of a run is the encoding of callback i |
| `Broadcast.ReplayConcat` | pub_tf.cpp:33-61 | the records of two runs back to back are the first run's records followed by the second's, so order is kept |
| `Broadcast.ReplayFromWorld` | pub_tf.cpp:39-40 | every record of a run has parent frame `"world"` and the clock reading of its own callback |
| `Broadcast.PoseBridge.constructor` | pub_tf.cpp:35 | before the first callback no broadcaster exists and nothing has been sent |
| `Broadcast.PoseBridge.EnsureBroadcaster` | pub_tf.cpp:35 | the broadcaster is constructed fresh on the first call only; later calls return the same instance and send nothing |
| `Broadcast.PoseBridge.DoPose` | pub_tf.cpp:33-62 | a callback keeps or builds the one broadcaster, appends exactly `EncodePose(msg, params, now)` to the sent log, and records the callback; the log always equals the replay of all callbacks so far |
| `Broadcast.TwoCallbacks` | pub_tf.cpp:33-61 | two callbacks for `"drone1"` reuse one broadcaster and send two records in order; the first is world → drone1 with the sample's translation and rotation and stamp `t1`, the second is the same record with stamp `t2` |

## Left out

- ROS start-up and plumbing: `setlocale`, `ros::init`, the `NodeHandle` construction, `subscribe` with its queue size of 1000, and `ros::spin`. These are process set-up and the event loop. ROS name resolution and validation of the topic name are not modelled either: the model gives the string passed to `subscribe`, not the name it resolves to (ROS would, for instance, collapse the `//` of the default topic).
- What `tf2_ros::TransformBroadcaster::sendTransform` does with a record (wrapping it in a `tf2_msgs/TFMessage` and publishing it on `/tf`). It is a library call; the model only appends the record to a log. Its failure modes are not modelled either, and neither is a failure of the broadcaster's construction: in C++ an exception from the static initialiser leaves `doPose` and construction is tried again on the next callback, while `PoseBridge.EnsureBroadcaster` always succeeds.
- `ros::Time::now()`: a clock read, replaced by the argument `now`.
- The thread safety of the function-static initialisation. This is concurrency.
- The unused `tf2::Quaternion qtn` and the commented-out `setRPY` line. No behaviour depends on them.
- Floating-point values: coordinates are `real`, so NaN and infinities are not represented. The source copies them verbatim, so no computation is lost.
- The `seq` field of the message header. `doPose` never sets it.
- Parameter values of a type other than string, and name resolution within the private namespace. The parameter server is a map from names relative to `~` to strings.
