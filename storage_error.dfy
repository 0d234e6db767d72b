/**
 * The error kinds of the storage crate and the text each describes itself with.
 * `Display` writes exactly that text.
 */
module StorageErrors {

  /** A boxed error of some other library, known here only by its own description. */
  datatype BoxedError = BoxedError(description: string)

  datatype HashError = UnsupportedType | BadInputLength | UnknownCode | Other(e: BoxedError) {

    function Description(): (r: string)
      ensures UnsupportedType? ==> r == "This type is not supported yet"
      ensures BadInputLength? ==> r == "Not matching input length"
      ensures UnknownCode? ==> r == "Found unknown code"
      ensures Other? ==> r == e.description
    {
      match this
      case UnsupportedType => "This type is not supported yet"
      case BadInputLength => "Not matching input length"
      case UnknownCode => "Found unknown code"
      case Other(e) => e.description
    }

    function Display(): (r: string)
      ensures r == Description()
    {
      Description()
    }
  }

  datatype SerializerError = SerializationError(e: BoxedError) | DeserializationError(e: BoxedError) | Other(e: BoxedError) {

    /** Every kind says what the error it wraps says. */
    function Description(): (r: string)
      ensures r == e.description
    {
      match this
      case SerializationError(e) => e.description
      case DeserializationError(e) => e.description
      case Other(e) => e.description
    }

    function Display(): (r: string)
      ensures r == Description()
    {
      Description()
    }
  }

  datatype StorageError = OutOfDiskSpace | InvalidKey | StringError(s: string) {

    function Description(): (r: string)
      ensures OutOfDiskSpace? ==> r == "Run out of disk space"
      ensures InvalidKey? ==> r == "The given key holds no value"
      ensures StringError? ==> r == s
    {
      match this
      case OutOfDiskSpace => "Run out of disk space"
      case InvalidKey => "The given key holds no value"
      case StringError(s) => s
    }

    function Display(): (r: string)
      ensures r == Description()
    {
      Description()
    }
  }

  datatype StringCoderError = Other(e: BoxedError) {

    function Description(): (r: string)
      ensures r == e.description
    {
      match this
      case Other(e) => e.description
    }

    function Display(): (r: string)
      ensures r == Description()
    {
      Description()
    }
  }

  datatype HashSpaceError =
    | HashError(hashError: HashError)
    | StorageError(storageError: StorageError)
    | StringCoderError(stringCoderError: StringCoderError)
    | LinkFormatError(s: string)
    | UnknownHashSpace(s: string)
    | UnsupportedHashSpace(s: string)
    | Other(e: BoxedError)
  {

    /** A wrapped error of this crate describes the whole; a message describes itself. */
    function Description(): (r: string)
      ensures HashError? ==> r == hashError.Description()
      ensures StorageError? ==> r == storageError.Description()
      ensures StringCoderError? ==> r == stringCoderError.Description()
      ensures LinkFormatError? || UnknownHashSpace? || UnsupportedHashSpace? ==> r == s
      ensures Other? ==> r == e.description
    {
      match this
      case HashError(h) => h.Description()
      case StorageError(st) => st.Description()
      case StringCoderError(c) => c.Description()
      case LinkFormatError(s) => s
      case UnknownHashSpace(s) => s
      case UnsupportedHashSpace(s) => s
      case Other(e) => e.description
    }

    function Display(): (r: string)
      ensures r == Description()
    {
      Description()
    }
  }
}
