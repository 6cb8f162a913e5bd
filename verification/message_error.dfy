/** Errors raised while decoding the scanner's XML messages
    (the `ParseError` of src/message/error.rs, which is not part of this model;
    its variants here follow the decoding paths used by the status message). */
module MessageError {

  datatype ParseError =
    /** The bytes were not a well-formed XML document. */
    | Xml(reason: string)
    /** The document has no child element with this tag. */
    | MissingChild(tag: string)
    /** A child's text is not one of the enumeration's wire names;
        carries the enumeration's type name and the raw text. */
    | UnknownEnumValue(typeName: string, value: string)
}
