/** The name of the topic `main` subscribes to, built from the agent name. */
module Topic {
  import opened GeometryMsgs
  import opened Params
  import opened Encoder

  datatype Option<T> = None | Some(value: T)

  const TopicPrefix := "/vrpn_client_node/"
  const TopicSuffix := "/pose"

  /** The pose topic of the agent `uavName`. */
  function PoseTopic(uavName: string): string
  {
    TopicPrefix + uavName + TopicSuffix
  }

  /** Reads the agent name back out of a topic name; `None` when the topic
      does not have the prefix and the suffix. */
  function AgentOfTopic(topic: string): (r: Option<string>)
    ensures r.Some? ==> PoseTopic(r.value) == topic
    ensures r.Some? <==> |topic| >= |TopicPrefix| + |TopicSuffix|
                         && topic[..|TopicPrefix|] == TopicPrefix
                         && topic[|topic| - |TopicSuffix|..] == TopicSuffix
  {
    if |topic| >= |TopicPrefix| + |TopicSuffix|
       && topic[..|TopicPrefix|] == TopicPrefix
       && topic[|topic| - |TopicSuffix|..] == TopicSuffix
    then
      var agent := topic[|TopicPrefix|..|topic| - |TopicSuffix|];
      assert topic == topic[..|TopicPrefix|] + agent + topic[|topic| - |TopicSuffix|..];
      Some(agent)
    else
      None
  }

  /** Building a topic and reading it back gives the agent name again. */
  lemma TopicRoundTrip(uavName: string)
    ensures AgentOfTopic(PoseTopic(uavName)) == Some(uavName)
  {
  }

  /** Different agents listen on different topics. */
  lemma PoseTopicInjective(a: string, b: string)
    ensures PoseTopic(a) == PoseTopic(b) <==> a == b
  {
    if PoseTopic(a) == PoseTopic(b) {
      TopicRoundTrip(a);
      TopicRoundTrip(b);
    }
  }

  /** The topic name `main` passes to `subscribe`, from the parameter as it
      is at startup. */
  function SubscribedTopic(params: ParamServer): (topic: string)
    ensures AgentOfTopic(topic) == Some(UavName(params))
  {
    TopicRoundTrip(UavName(params));
    PoseTopic(UavName(params))
  }

  /** With `uav_name` unset, the topic name passed to `subscribe` has an
      empty path segment before the placeholder. */
  lemma DefaultTopic(params: ParamServer)
    requires UavNameKey !in params
    ensures SubscribedTopic(params) == "/vrpn_client_node//none/pose"
  {
  }

  /** While the parameter keeps the value it had at startup, every record
      is published under the agent named in the subscribed topic. */
  lemma TopicMatchesChildFrame(params: ParamServer, msg: PoseStamped, now: Time)
    ensures AgentOfTopic(SubscribedTopic(params)) == Some(EncodePose(msg, params, now).childFrameId)
  {
  }

  /** The topic is built from the parameter read in `main`, the child frame
      from the one read in a later callback: they name the same agent
      exactly when `uav_name` gives the same name at both reads. */
  lemma TopicVsLaterChildFrame(atStart: ParamServer, later: ParamServer, msg: PoseStamped, now: Time)
    ensures AgentOfTopic(SubscribedTopic(atStart)) == Some(EncodePose(msg, later, now).childFrameId)
        <==> UavName(atStart) == UavName(later)
  {
  }
}
