/** How the gateway answers a write of its configuration. */
module GatewayReplies {

  /** Whether it confirmed the write; without a confirmation it may or may not have stored the configuration. */
  datatype Reply = Confirmed | Unconfirmed(stored: bool)
}
