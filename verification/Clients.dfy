/** Identifiers shared by the hub's voice and stream state. */
module Clients {

  type UserId = nat
  type ServerId = nat
  type ChannelId = nat
  type DeviceId = nat

  /** A connection of a user. */
  datatype Client = Client(connection: nat, user: UserId)
}
