/**
 * The per-socket record the scheduler keeps for each descriptor the engine
 * watches (`CurlMultiSocket`), and how one interest request of the engine
 * (`CURL_POLL_IN`, `CURL_POLL_OUT`, `CURL_POLL_INOUT`, ...) changes it.
 * A `QSocketNotifier` is reduced to whether it exists and whether it is enabled.
 */
module SocketInterest {
  import opened CurlDefs

  datatype Notifier = Notifier(enabled: bool)

  /** The error notifier of the C++ record is never created, so it is not modelled. */
  datatype SocketRecord = SocketRecord(descriptor: int, readNotifier: Option<Notifier>, writeNotifier: Option<Notifier>)

  /** A record freshly allocated for a descriptor: no notifiers yet. */
  function NewRecord(socketDescriptor: int): (r: SocketRecord)
    ensures r.descriptor == socketDescriptor && r.readNotifier.None? && r.writeNotifier.None?
    ensures !Enabled(r.readNotifier) && !Enabled(r.writeNotifier)
  {
    SocketRecord(socketDescriptor, None, None)
  }

  predicate Enabled(n: Option<Notifier>) {
    n.Some? && n.value.enabled
  }

  /** `setEnabled(false)` on a notifier that exists; nothing when there is none. */
  function Disabled(n: Option<Notifier>): (r: Option<Notifier>)
    ensures r.Some? == n.Some? && !Enabled(r)
  {
    if n.Some? then Some(Notifier(false)) else None
  }

  /**
   * An interest request applied to an existing record, as the scheduler's
   * socket callback does it: IN/INOUT create (if need be) and enable the read
   * notifier, OUT/INOUT the write notifier; then IN disables the write notifier
   * and OUT, when a read notifier exists, also disables the WRITE notifier.
   */
  function ApplyInterest(s: SocketRecord, what: int): (r: SocketRecord)
    ensures r.descriptor == s.descriptor
    ensures what == CURL_POLL_IN ==>
              Enabled(r.readNotifier) && r.writeNotifier == Disabled(s.writeNotifier)
    ensures what == CURL_POLL_INOUT ==> Enabled(r.readNotifier) && Enabled(r.writeNotifier)
    ensures what == CURL_POLL_OUT ==>
              r.readNotifier == s.readNotifier && r.writeNotifier.Some? &&
              (Enabled(r.writeNotifier) <==> s.readNotifier.None?)
    ensures what !in {CURL_POLL_IN, CURL_POLL_OUT, CURL_POLL_INOUT} ==> r == s
  {
    var withRead :=
      if what == CURL_POLL_IN || what == CURL_POLL_INOUT
      then s.(readNotifier := Some(Notifier(true))) else s;
    var withWrite :=
      if what == CURL_POLL_OUT || what == CURL_POLL_INOUT
      then withRead.(writeNotifier := Some(Notifier(true))) else withRead;
    if what == CURL_POLL_IN then
      withWrite.(writeNotifier := Disabled(withWrite.writeNotifier))
    else if what == CURL_POLL_OUT && withWrite.readNotifier.Some? then
      withWrite.(writeNotifier := Disabled(withWrite.writeNotifier))
    else
      withWrite
  }

  /**
   * The evident intent of the OUT branch: a write-only request disables the
   * READ notifier, symmetric to the IN branch.
   */
  function ApplyInterestIntended(s: SocketRecord, what: int): (r: SocketRecord)
    ensures r.descriptor == s.descriptor
    ensures what == CURL_POLL_IN ==>
              Enabled(r.readNotifier) && r.writeNotifier == Disabled(s.writeNotifier)
    ensures what == CURL_POLL_OUT ==>
              Enabled(r.writeNotifier) && r.readNotifier == Disabled(s.readNotifier)
    ensures what == CURL_POLL_INOUT ==> Enabled(r.readNotifier) && Enabled(r.writeNotifier)
    ensures what !in {CURL_POLL_IN, CURL_POLL_OUT, CURL_POLL_INOUT} ==> r == s
  {
    var withRead :=
      if what == CURL_POLL_IN || what == CURL_POLL_INOUT
      then s.(readNotifier := Some(Notifier(true))) else s;
    var withWrite :=
      if what == CURL_POLL_OUT || what == CURL_POLL_INOUT
      then withRead.(writeNotifier := Some(Notifier(true))) else withRead;
    if what == CURL_POLL_IN then
      withWrite.(writeNotifier := Disabled(withWrite.writeNotifier))
    else if what == CURL_POLL_OUT then
      withWrite.(readNotifier := Disabled(withWrite.readNotifier))
    else
      withWrite
  }

  /**
   * The two agree on every request except a write-only request on a socket
   * that already has a read notifier.
   */
  lemma AsWrittenDiffersOnlyOnOut(s: SocketRecord, what: int)
    ensures ApplyInterest(s, what) == ApplyInterestIntended(s, what) <==>
              !(what == CURL_POLL_OUT && s.readNotifier.Some?)
  {
    if what == CURL_POLL_OUT && s.readNotifier.None? {
      assert ApplyInterest(s, what).writeNotifier == Some(Notifier(true));
      assert ApplyInterestIntended(s, what).writeNotifier == Some(Notifier(true));
    }
  }

  /**
   * The input that shows the defect: the engine first asks for read interest,
   * then for write-only interest on the same descriptor. As written, the
   * socket ends up watched for reading and NOT for writing; as intended,
   * it is watched for writing only.
   */
  lemma ReadThenWriteOnly(socketDescriptor: int)
    ensures var asWritten := ApplyInterest(ApplyInterest(NewRecord(socketDescriptor), CURL_POLL_IN), CURL_POLL_OUT);
            Enabled(asWritten.readNotifier) && !Enabled(asWritten.writeNotifier)
    ensures var intended := ApplyInterestIntended(ApplyInterestIntended(NewRecord(socketDescriptor), CURL_POLL_IN), CURL_POLL_OUT);
            !Enabled(intended.readNotifier) && Enabled(intended.writeNotifier)
  {
  }
}
