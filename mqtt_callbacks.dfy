/**
 * The broker connection's callbacks: resubscribing when a resumed connection
 * lost its session, treating a rejected resubscription as fatal, and queueing
 * every inbound message for the command loop.
 */
module MqttCallbacks {
  import opened Wrappers
  import opened AppThreads

  /** CONNACK return codes, section 3.2.2.3 of MQTT Version 3.1.1. */
  datatype ConnectReturnCode =
    | Accepted
    | UnacceptableProtocolVersion
    | IdentifierRejected
    | ServerUnavailable
    | BadUserNameOrPassword
    | NotAuthorized

  /** Whether a resumed connection asks the broker to resubscribe to its topics. */
  function OnConnectionResumed(returnCode: ConnectReturnCode, sessionPresent: bool): (resubscribe: bool)
    ensures resubscribe <==> returnCode == Accepted && !sessionPresent
  {
    returnCode == Accepted && !sessionPresent
  }

  /** One topic of the resubscribe result: the QoS the broker granted, None when it rejected it. */
  datatype TopicGrant = TopicGrant(topic: string, qos: Option<QoS>)

  /** Completion returns normally, or exits the process naming the rejected topic. */
  datatype ResubscribeOutcome = Resubscribed | Exit(rejectedTopic: string)

  method OnResubscribeComplete(topics: seq<TopicGrant>) returns (o: ResubscribeOutcome)
    ensures o.Resubscribed? <==> forall i :: 0 <= i < |topics| ==> topics[i].qos.Some?
    ensures o.Exit? ==>
      exists i :: 0 <= i < |topics| && topics[i].qos.None? && topics[i].topic == o.rejectedTopic
               && forall j :: 0 <= j < i ==> topics[j].qos.Some?
  {
    for i := 0 to |topics|
      invariant forall j :: 0 <= j < i ==> topics[j].qos.Some?
    {
      if topics[i].qos.None? {
        return Exit(topics[i].topic);
      }
    }
    return Resubscribed;
  }

  /** Each inbound message is queued, once, behind those already waiting. */
  method OnMessageReceived(app: App, topic: string, payload: Bytes)
    modifies app`iotPipeline
    ensures app.iotPipeline == old(app.iotPipeline) + [Inbound(topic, payload)]
  {
    app.iotPipeline := app.iotPipeline + [Inbound(topic, payload)];
  }
}
