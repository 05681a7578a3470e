/**
 * The transfer engine (libcurl) as this model sees it: the constants the
 * adapter passes to and receives from the engine, the integer widths of the
 * C interface, and the "finished transfer" message record.
 */
module CurlDefs {

  datatype Option<T> = None | Some(value: T)

  /** C `int`, `long` (LP64) and `size_t`. */
  const INT_MIN: int := -0x8000_0000
  const INT_MAX: int := 0x7FFF_FFFF
  type Int = x: int | INT_MIN <= x <= INT_MAX
  type Long = x: int | -0x8000_0000_0000_0000 <= x < 0x8000_0000_0000_0000
  const SIZE_LIMIT: int := 0x1_0000_0000_0000_0000
  type SizeT = x: int | 0 <= x < SIZE_LIMIT

  /** `size * nitems` evaluated in `size_t`: wraps modulo 2^64. */
  function SizeProduct(size: SizeT, nitems: SizeT): (r: SizeT)
    ensures size * nitems < SIZE_LIMIT ==> r == size * nitems
  {
    var product := size * nitems;
    if product < SIZE_LIMIT then product else product % SIZE_LIMIT
  }

  /** An engine easy handle (`CURL *`); 0 stands for `nullptr`. */
  type HandleId = nat
  const NULL_HANDLE: HandleId := 0

  /** `CURLcode`: the engine's result code; `CURLE_OK` is success. */
  type CurlCode = int
  const CURLE_OK: CurlCode := 0

  /** `CURLMSG` kinds: the engine reports only `CURLMSG_DONE`. */
  const CURLMSG_DONE: int := 1

  /** What the engine asks of a socket (`what` of the socket callback). */
  const CURL_POLL_NONE: int := 0
  const CURL_POLL_IN: int := 1
  const CURL_POLL_OUT: int := 2
  const CURL_POLL_INOUT: int := 3
  const CURL_POLL_REMOVE: int := 4

  /** Event bits passed to `curl_multi_socket_action`. */
  const CURL_CSELECT_IN: int := 1
  const CURL_CSELECT_OUT: int := 2
  const CURL_CSELECT_ERR: int := 4

  /** The descriptor that tells the driver "the timeout expired". */
  const CURL_SOCKET_TIMEOUT: int := -1

  /** Return value of a seek callback that cannot seek. */
  const CURL_SEEKFUNC_CANTSEEK: int := 2

  /** `CURLMsg`: kind, the easy handle it concerns, and the transfer's result. */
  datatype CurlMsg = CurlMsg(msg: int, easyHandle: HandleId, result: CurlCode)
}
