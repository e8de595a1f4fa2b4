/**
 * What the classifiers read from the host, passed in instead of read from
 * global state: the JVM system properties and the outcome of running
 * `ldd --version`.
 */
module Host {
  import opened Wrappers

  /** A snapshot of `System.getProperties()`. */
  type Properties = map<string, string>

  /** `System.getProperty(key)`: None when the property is not set. */
  function Property(props: Properties, key: string): (r: Option<string>)
    ensures r.Some? <==> key in props
    ensures r.Some? ==> r.value == props[key]
  {
    if key in props then Some(props[key]) else None
  }

  /** `System.getProperty(key, default)`. */
  function PropertyOr(props: Properties, key: string, default: string): (r: string)
    ensures key in props ==> r == props[key]
    ensures key !in props ==> r == default
  {
    if key in props then props[key] else default
  }

  /** A value of `InputStream.read()` other than the end-of-stream marker. */
  newtype byte = b: int | 0 <= b < 256

  /** The byte `InputStream.read()` returns for a line feed. */
  const LineFeed: byte := 10

  /**
   * How a run of `ldd --version` went, as far as the readers of its output
   * can tell: the process did not start, waiting for it was interrupted,
   * it did not exit within the one-second wait, or it exited and its
   * standard output delivered `output`, after which a read either reports
   * the end of the stream or, when `readFails`, throws an `IOException`.
   */
  datatype Probe =
    | StartFailed
    | Interrupted
    | TimedOut
    | Exited(output: seq<byte>, readFails: bool)
}
