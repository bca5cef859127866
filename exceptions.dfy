/** The `CloudWatchError` hierarchy of src/collector/exceptions.py. Each
    subclass is one constructor; `Text` is `str(e)`, the message each
    constructor hands to `Exception.__init__`. */
module CloudWatchErrors {
  import opened Common

  datatype CloudWatchError =
    | LogStreamError(streamName: string, message: string)
    | LogGroupError(groupName: string, message: string)
    | PaginationError(message: string)
    | TimestampError(timestamp: PyValue, message: string)

  /** `s` ends with `suffix`. */
  predicate EndsWith(s: string, suffix: string) {
    |suffix| <= |s| && s[|s| - |suffix|..] == suffix
  }

  /** `str(e)`: a fixed prefix naming the kind (and the stream, group or
      offending value), then ": " and the stored message. */
  function Text(e: CloudWatchError): (s: string)
    ensures EndsWith(s, ": " + e.message)
  {
    match e
    case LogStreamError(n, m) => "Error in log stream '" + n + "': " + m
    case LogGroupError(g, m) => "Error in log group '" + g + "': " + m
    case PaginationError(m) => "Pagination error: " + m
    case TimestampError(t, m) => "Invalid timestamp '" + PyStrOf(t) + "': " + m
  }

  /** The texts of two errors of different kinds never coincide. */
  lemma TextDistinguishesKinds(e1: CloudWatchError, e2: CloudWatchError)
    requires e1.LogStreamError? != e2.LogStreamError? || e1.LogGroupError? != e2.LogGroupError? ||
             e1.PaginationError? != e2.PaginationError?
    ensures Text(e1) != Text(e2)
  {
    var s1, s2 := Text(e1), Text(e2);
    if e1.LogStreamError? || e1.LogGroupError? {
      assert s1[0] == 'E' && s1[13] == (if e1.LogStreamError? then 's' else 'g');
    }
    if e2.LogStreamError? || e2.LogGroupError? {
      assert s2[0] == 'E' && s2[13] == (if e2.LogStreamError? then 's' else 'g');
    }
    if e1.PaginationError? {
      assert s1[0] == 'P';
    }
    if e2.PaginationError? {
      assert s2[0] == 'P';
    }
    if e1.TimestampError? {
      assert s1[0] == 'I';
    }
    if e2.TimestampError? {
      assert s2[0] == 'I';
    }
  }
}
