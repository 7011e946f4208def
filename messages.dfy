/** The message validators of `core/message/mod.rs`: the id checks every
    message runs and the command range check. */
module Messages {
  import opened Wrappers
  import opened Errors

  /** Id of messages the server sends on its own, not as a reply. */
  const ButtplugServerEventId: U32 := 0

  /** True for a server event: a message whose id is the event id. */
  predicate IsServerEvent(id: U32)
  {
    id == ButtplugServerEventId
  }

  const SystemIdText: string := "Message should have id of 0, as it is a system message."
  const NotSystemIdText: string :=
    "Message should not have 0 for an Id. Id of 0 is reserved for system messages."

  /** Accepts exactly the system id 0. */
  function IsSystemId(id: U32): (r: Result<(), ButtplugMessageError>)
    ensures r.Success? <==> id == ButtplugServerEventId
    ensures r.Failure? ==> r.error == InvalidMessageContents(SystemIdText)
  {
    if id == 0 then Success(()) else Failure(InvalidMessageContents(SystemIdText))
  }

  /** Accepts every id except the system id 0. */
  function IsNotSystemId(id: U32): (r: Result<(), ButtplugMessageError>)
    ensures r.Success? <==> id != ButtplugServerEventId
    ensures r.Failure? ==> r.error == InvalidMessageContents(NotSystemIdText)
  {
    if id == 0 then Failure(InvalidMessageContents(NotSystemIdText)) else Success(())
  }

  /** Accepts a value in the closed range [0.0, 1.0]; otherwise fails with the
      caller's text. */
  function IsInCommandRange(value: real, errorMsg: string): (r: Result<(), ButtplugMessageError>)
    ensures r.Success? <==> 0.0 <= value <= 1.0
    ensures r.Failure? ==> r.error == InvalidMessageContents(errorMsg)
  {
    if !(0.0 <= value && value <= 1.0) then Failure(InvalidMessageContents(errorMsg)) else Success(())
  }

  /** For every id exactly one of the two id checks succeeds, and the one that
      succeeds is the system check exactly for server events. */
  lemma IdChecksPartition(id: U32)
    ensures IsSystemId(id).Success? != IsNotSystemId(id).Success?
    ensures IsSystemId(id).Success? <==> IsServerEvent(id)
  {
  }
}
