/** Error values and the failure-carrying wrappers shared by every module.

    Go returns errors as interface values; here every error the core can
    produce is a constructor of one datatype, one per kind of failure, so the
    contracts can say which failure an operation reports. */
module Errors {

  datatype Option<+T> = None | Some(value: T)

  datatype Result<+T> = Ok(value: T) | Fail(error: Error)

  /** The unsigned integer widths of the Go structs that the core decodes into. */
  const Max32: nat := 0x1_0000_0000
  const Max64: nat := 0x1_0000_0000_0000_0000
  type uint32 = x: nat | x < Max32
  type uint64 = x: nat | x < Max64

  type byte = b: nat | b < 256

  datatype Error =
    | Transport(cause: string)      // net/http: the request could not be made
    | Decode(cause: string)         // encoding/json: the body does not decode
    | InvalidByte(b: char)          // encoding/hex.InvalidByteError
    | OddLength                     // encoding/hex.ErrLength
    | Escape(s: string)             // net/url.EscapeError
    | Encrypt(cause: string)        // crypto/rsa failure
    | Input(cause: string)          // fmt.Scanln failure on standard input
    | NoSID                         // geothermal.NoSID
    | GetRSAKeyFailed               // geothermal.GetRSAKeyFailed
    | LoginFail                     // geothermal.ErrLoginFail
    | NoAuthToken                   // chat.ErrNoAuthToken
    | Text(msg: string)             // errors.New(msg) built at run time

  /** The error json.Unmarshal returns when handed a nil target. */
  const NilUnmarshal: Error := Decode("json: Unmarshal(nil)")
}
