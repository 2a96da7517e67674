/** The stages that the server takes a connection through. */
module Stages {
  datatype Stage = AwaitingHello | Handshaking | Ready | Closing | Closed
}
