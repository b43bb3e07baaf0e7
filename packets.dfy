/**
 * The stream elements a connection exchanges. Their XML content is opaque to the
 * connection, so each carries its serialised form as an uninterpreted string.
 */
module Packets {

  /** An addressed top-level message unit (message, presence, IQ). */
  datatype Stanza = Stanza(xml: string)

  /** A top-level stream element that is not a stanza (stream management, SASL, ...). */
  datatype Nonza = Nonza(xml: string)

  /** Either kind of top-level element; the outbound queue holds these. */
  datatype TopLevelStreamElement = StanzaElement(stanza: Stanza) | NonzaElement(nonza: Nonza)

  /** An extension element announced as a stream feature. */
  datatype ExtensionElement = ExtensionElement(elementName: string, namespace: string)
}
