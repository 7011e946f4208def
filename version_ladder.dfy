/** How the four message spec versions relate: which server messages each
    one can deliver and which client messages each one offers. */
module VersionLadder {
  import opened Wrappers
  import opened Errors
  import SM = ServerMessages
  import SpecV3
  import SpecV2
  import SpecV1
  import SpecV0

  /** V3 and V2 deliver the same server messages; V1 and V0 deliver those
      and log messages. Test messages and the device readings reach no
      version, not even V2, which declares three of the readings. */
  lemma ServerMessageLadder(msg: SM.ButtplugServerMessage, conv: SM.ServerConversions)
    ensures SpecV2.TryFromServerMessage(msg, conv).Success? <==> SpecV3.TryFromServerMessage(msg, conv).Success?
    ensures SpecV1.TryFromServerMessage(msg, conv).Success? <==> SpecV0.TryFromServerMessage(msg, conv).Success?
    ensures SpecV1.TryFromServerMessage(msg, conv).Success? <==> SpecV3.TryFromServerMessage(msg, conv).Success? || msg.Log?
    ensures msg.Test? || msg.RawReading? || msg.SensorReading? || msg.BatteryLevelReading? || msg.RSSILevelReading? ==>
      && SpecV3.TryFromServerMessage(msg, conv).Failure?
      && SpecV2.TryFromServerMessage(msg, conv).Failure?
      && SpecV1.TryFromServerMessage(msg, conv).Failure?
      && SpecV0.TryFromServerMessage(msg, conv).Failure?
  {
  }

  /** A rejected message is reported the same way by every version, naming
      the message, its rendering and the version's own union. */
  lemma VersionErrorsNameTheTarget(msg: SM.ButtplugServerMessage, conv: SM.ServerConversions)
    requires !SM.InEveryVersion(msg) && !msg.Log?
    ensures SpecV3.TryFromServerMessage(msg, conv)
      == Failure(VersionError("ButtplugServerMessage", conv.debug(msg), "ButtplugSpecV3ServerMessage"))
    ensures SpecV2.TryFromServerMessage(msg, conv)
      == Failure(VersionError("ButtplugServerMessage", conv.debug(msg), "ButtplugSpecV2ServerMessage"))
    ensures SpecV1.TryFromServerMessage(msg, conv)
      == Failure(VersionError("ButtplugServerMessage", conv.debug(msg), "ButtplugSpecV1ServerMessage"))
    ensures SpecV0.TryFromServerMessage(msg, conv)
      == Failure(VersionError("ButtplugServerMessage", conv.debug(msg), "ButtplugSpecV0ServerMessage"))
  {
  }

  /** Which client messages each version offers: scalar and sensor commands
      only from V3, battery and RSSI commands only in V2, raw commands from
      V2 on, the generic vibrate, linear and rotate commands from V1 on, and
      the deprecated commands only up to V1. */
  lemma ClientMessageLadder()
    ensures SM.ScalarCmdMsg in SpecV3.ClientMessages
    ensures SM.ScalarCmdMsg !in SpecV2.ClientMessages && SM.ScalarCmdMsg !in SpecV1.ClientMessages
    ensures forall k :: k in {SM.SensorReadCmdMsg, SM.SensorSubscribeCmdMsg, SM.SensorUnsubscribeCmdMsg} ==>
      k in SpecV3.ClientMessages && k !in SpecV2.ClientMessages && k !in SpecV1.ClientMessages && k !in SpecV0.ClientMessages
    ensures forall k :: k in {SM.BatteryLevelCmdMsg, SM.RSSILevelCmdMsg} ==>
      k in SpecV2.ClientMessages && k !in SpecV3.ClientMessages && k !in SpecV1.ClientMessages && k !in SpecV0.ClientMessages
    ensures forall k :: k in {SM.RawWriteCmdMsg, SM.RawReadCmdMsg, SM.RawSubscribeCmdMsg, SM.RawUnsubscribeCmdMsg} ==>
      k in SpecV3.ClientMessages && k in SpecV2.ClientMessages && k !in SpecV1.ClientMessages && k !in SpecV0.ClientMessages
    ensures forall k :: k in {SM.VibrateCmdMsg, SM.LinearCmdMsg, SM.RotateCmdMsg} ==>
      k in SpecV3.ClientMessages && k in SpecV2.ClientMessages && k in SpecV1.ClientMessages && k !in SpecV0.ClientMessages
    ensures forall k :: k in {SM.SingleMotorVibrateCmdMsg, SM.FleshlightLaunchFW12CmdMsg, SM.LovenseCmdMsg, SM.KiirooCmdMsg, SM.VorzeA10CycloneCmdMsg} ==>
      k !in SpecV3.ClientMessages && k !in SpecV2.ClientMessages && k in SpecV1.ClientMessages && k in SpecV0.ClientMessages
    ensures SM.RequestLogMsg in SpecV0.ClientMessages
    ensures SM.RequestLogMsg !in SpecV1.ClientMessages && SM.RequestLogMsg !in SpecV2.ClientMessages && SM.RequestLogMsg !in SpecV3.ClientMessages
  {
  }
}
