/**
 * Everything the client reaches outside its own code, as plain functions: the clock, the
 * mcp.run HTTP API, the extism sandbox, Python's `hash`, and the base64, UTF-8 and JSON
 * codecs. Each is deterministic here; a failure is the exception the library would raise.
 */
module Host {
  import opened Wrappers
  import opened Errors
  import opened Json
  import opened Servlets

  datatype Env = Env(
    /** `datetime.now()`, in microseconds. */
    now: int,
    /** `requests.get(url, cookies={"sessionId": session}).json()`. */
    getJson: (string, string) -> Result<Json, Error>,
    /** `requests.get(url, cookies={"sessionId": session}).content`. */
    getBytes: (string, string) -> Result<Bytes, Error>,
    /** Python's (per-process salted) `hash` of a string. */
    hash: string -> int,
    /** Building `ext.Plugin(manifest, wasi=wasi, functions=[])`; an error when it raises. */
    load: (Manifest, bool) -> Option<Error>,
    /** `json.loads(plugin.call("call", json.dumps(request)))` on the plugin built from the manifest. */
    invoke: (Manifest, bool, Json) -> Result<Json, Error>,
    /** `str.encode()`. */
    utf8Encode: string -> Bytes,
    /** `bytes.decode()`. */
    utf8Decode: Bytes -> Result<string, Error>,
    /** `base64.b64decode` of a str. */
    b64Decode: string -> Result<Bytes, Error>,
    /** `json.loads` of a str. */
    parseJson: string -> Result<Json, Error>)
}
