/** The types of the jack client library that the handlers exchange with it. */
module Jack {
  import opened Text

  /** `jack::Frames` (`jack_nframes_t`). */
  type Frames = U32

  /** `jack::PortId` (`jack_port_id_t`). */
  type PortId = U32

  /** `jack::ClientStatus`: a set of status flags carried in a `u32`. */
  datatype ClientStatus = ClientStatus(bits: U32)

  /** `jack::Control`: what a callback asks the server to do next. */
  datatype Control = Continue | Quit
}
