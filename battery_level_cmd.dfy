/** `BatteryLevelCmdV2` (`core/message/battery_level_cmd.rs`): the
    spec-version-2 request for a device's battery level. */
module BatteryLevelCmds {
  import opened Wrappers
  import opened Errors
  import opened Messages

  datatype BatteryLevelCmdV2 = BatteryLevelCmdV2(id: U32, deviceIndex: U32)

  /** `new`: a request for the given device, with the default client id 1. */
  function NewBatteryLevelCmdV2(deviceIndex: U32): (r: BatteryLevelCmdV2)
    ensures r.deviceIndex == deviceIndex
    ensures r.id == 1
  {
    BatteryLevelCmdV2(1, deviceIndex)
  }

  /** `is_valid`: a client request must not carry the system id 0. */
  function IsValid(msg: BatteryLevelCmdV2): (r: Result<(), ButtplugMessageError>)
    ensures r.Success? <==> msg.id != 0
    ensures r.Failure? ==> r.error == InvalidMessageContents(NotSystemIdText)
  {
    IsNotSystemId(msg.id)
  }

  /** The derived `finalize` does nothing. */
  function Finalize(msg: BatteryLevelCmdV2): (r: BatteryLevelCmdV2)
    ensures r == msg
  {
    msg
  }

  /** A freshly built request passes validation, also once finalized, and
      is not mistaken for a server event. */
  lemma NewBatteryLevelCmdIsValid(deviceIndex: U32)
    ensures IsValid(Finalize(NewBatteryLevelCmdV2(deviceIndex))).Success?
    ensures !IsServerEvent(NewBatteryLevelCmdV2(deviceIndex).id)
  {
  }
}
