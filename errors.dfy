/** The exceptions the modelled code raises or lets through, one tag per
    kind that matters to the pipeline's swallow-or-propagate policy. */
module Errors {

  datatype Error =
    /** Python's TypeError or AttributeError: a value has the wrong shape
        (`.get` on a list, iterating a number, indexing a string by a key). */
    | TypeError
    /** Python's ValueError: an unsupported provider name, an unpacking of a
        coordinate list that does not hold exactly two values. */
    | ValueError
    /** A record constructor rejected a field: missing, null where a value is
        required, of the wrong type, or outside a closed enumeration. */
    | ValidationError
    /** The image file does not exist; raised before image processing
        starts, so it is not wrapped as an image-processing error. */
    | FileNotFoundError
    /** The image-preparation collaborator failed (unreadable file, oversize
        output after encoding). */
    | ImageProcessingError
    /** The model backend failed (transport or protocol). */
    | ProviderError
    /** Python's outcome here depends on behaviour this model does not carry:
        `float` of a string, or the key order of a non-empty dict of day names. */
    | NotModelled
}
