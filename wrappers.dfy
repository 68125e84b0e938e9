/** Optional values, results and the errors the modelled programs can raise. */
module Wrappers {

  datatype Option<+T> = None | Some(value: T)

  /** Every failure the model distinguishes: four replies of the Redis server,
      the client's refusal of a value it cannot encode, two Python conversion
      exceptions and a failed HTTP request. */
  datatype Error =
    | WrongType          // Redis: WRONGTYPE, the key holds the other kind of value
    | NotAnInteger       // Redis: value is not an integer or out of range
    | IncrOverflow       // Redis: increment or decrement would overflow
    | InvalidExpireTime  // Redis: invalid expire time in SETEX
    | DataError          // redis-py: a value of a type the client does not encode
    | UnicodeDecodeError // Python: bytes.decode('utf-8') on malformed input
    | IntValueError      // Python: int() on bytes that are not an integer literal
    | RequestFailed      // requests.get raised (connection error, timeout, ...)

  datatype Result<+T> = Ok(value: T) | Err(error: Error)
}
