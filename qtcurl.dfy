/**
 * The adapter proper: a transfer (`CurlEasy`) and the scheduler that drives
 * it from the event loop (`CurlMulti`). The two refer to each other, so they
 * share a module. The engine is abstract: an option table per easy handle, a
 * set of handles added to the driver, a queue of "finished" messages, and the
 * `CURLINFO_PRIVATE` lookup from handle to transfer. Qt's socket notifiers and
 * the single-shot timer are plain fields; signals are appended to a log.
 */
module QtCurl {
  import opened CurlDefs
  import opened HeaderTable
  import opened HeaderLines
  import opened SocketInterest

  /** The bound data callbacks: how many of the offered bytes they handled (contents are not modelled). */
  type DataFunction = SizeT -> SizeT
  type SeekFunction = (Long, Int) -> Int

  /** The static entry points the engine can be given as callbacks. */
  datatype Trampoline = StaticRead | StaticWrite | StaticHeader | StaticSeek | StaticXferInfo

  datatype CurlOption =
    | CURLOPT_PRIVATE | CURLOPT_XFERINFOFUNCTION | CURLOPT_XFERINFODATA
    | CURLOPT_READFUNCTION | CURLOPT_READDATA | CURLOPT_WRITEFUNCTION | CURLOPT_WRITEDATA
    | CURLOPT_HEADERFUNCTION | CURLOPT_HEADERDATA | CURLOPT_SEEKFUNCTION | CURLOPT_SEEKDATA
    | CURLOPT_HTTPHEADER | OtherOption(code: int)

  /** A value stored in the engine's option table; `ThisTransfer` is the transfer itself (`this`). */
  datatype OptionValue =
    | NullValue | ThisTransfer | Callback(entry: Trampoline) | SList(lines: seq<Bytes>)
    | LongValue(n: int) | TextValue(text: Bytes)

  datatype Signal =
    | Aborted
    | Progress(downloadTotal: int, downloadNow: int, uploadTotal: int, uploadNow: int)
    | Done(result: CurlCode)

  datatype Emission = Emission(sender: CurlEasy, signal: Signal)

  /** Every signal emitted by the transfers that share it, in emission order. */
  class SignalLog {
    var events: seq<Emission>

    constructor ()
      ensures events == []
    {
      events := [];
    }
  }

  /** The engine's `long` timeout saturated into `[-1, INT_MAX]` before it reaches the `int` timer. */
  function ClampTimeout(timeoutMs: Long): (r: Int)
    ensures r == if timeoutMs < -1 then -1 else if timeoutMs > INT_MAX then INT_MAX else timeoutMs
    ensures r >= 0 <==> timeoutMs >= 0
  {
    if timeoutMs >= INT_MAX then INT_MAX
    else if timeoutMs >= 0 then timeoutMs
    else -1
  }

  // ---------------------------------------------------------------------
  // Draining the driver's message queue
  // ---------------------------------------------------------------------

  /** A message that reaches a transfer and finishes it: DONE, non-null handle, non-null owner. */
  predicate Finishes(m: CurlMsg, privateOf: map<HandleId, CurlEasy>) {
    m.msg == CURLMSG_DONE && m.easyHandle != NULL_HANDLE && m.easyHandle in privateOf
  }

  /** The `done` signals that delivering the messages of `q`, in order, emits. */
  function DoneSignals(q: seq<CurlMsg>, privateOf: map<HandleId, CurlEasy>): seq<Emission>
    decreases |q|
  {
    if q == [] then []
    else
      var m := q[|q| - 1];
      DoneSignals(q[..|q| - 1], privateOf) + DeliveredSignals(m, privateOf)
  }

  /** The signal delivering one message emits: `done` for a finishing message, nothing otherwise. */
  function DeliveredSignals(m: CurlMsg, privateOf: map<HandleId, CurlEasy>): seq<Emission> {
    if Finishes(m, privateOf) then [Emission(privateOf[m.easyHandle], Done(m.result))] else []
  }

  /** The transfers that the messages of `q` finish. */
  function DoneOwners(q: seq<CurlMsg>, privateOf: map<HandleId, CurlEasy>): (r: set<CurlEasy>)
    ensures r <= privateOf.Values
    decreases |q|
  {
    if q == [] then {}
    else
      var m := q[|q| - 1];
      DoneOwners(q[..|q| - 1], privateOf) +
      (if Finishes(m, privateOf) then {privateOf[m.easyHandle]} else {})
  }

  /** The `aborted` signals of transfers aborted in the given order. */
  function AbortSignals(order: seq<CurlEasy>): (r: seq<Emission>)
    ensures |r| == |order|
    decreases |order|
  {
    if order == [] then []
    else AbortSignals(order[..|order| - 1]) + [Emission(order[|order| - 1], Aborted)]
  }

  /** `order` lists every element of `s` exactly once. */
  ghost predicate Enumerates(order: seq<CurlEasy>, s: set<CurlEasy>) {
    && (forall i, j :: 0 <= i < j < |order| ==> order[i] != order[j])
    && (forall i :: 0 <= i < |order| ==> order[i] in s)
    && (forall x :: x in s ==> x in order)
  }

  lemma AppendAssociative(a: seq<Emission>, b: seq<Emission>, c: seq<Emission>)
    ensures a + (b + c) == (a + b) + c
  {
  }

  /** Delivering one more message of the queue extends the signals and the finished transfers by that message's. */
  lemma DeliveryStep(q: seq<CurlMsg>, p: int, privateOf: map<HandleId, CurlEasy>)
    requires 0 <= p < |q|
    ensures DoneSignals(q[..p + 1], privateOf) == DoneSignals(q[..p], privateOf) + DeliveredSignals(q[p], privateOf)
    ensures DoneOwners(q[..p + 1], privateOf) ==
              DoneOwners(q[..p], privateOf) + (if Finishes(q[p], privateOf) then {privateOf[q[p].easyHandle]} else {})
  {
    assert q[..p + 1][..p] == q[..p];
  }

  /** The transfers the messages of `q` finish emit their signals into `log`. */
  predicate ReportsTo(q: seq<CurlMsg>, privateOf: map<HandleId, CurlEasy>, log: SignalLog) {
    forall i :: 0 <= i < |q| && Finishes(q[i], privateOf) ==> privateOf[q[i].easyHandle].signals == log
  }

  /** No two messages of `q` finish the same transfer. */
  predicate FinishesOnce(q: seq<CurlMsg>, privateOf: map<HandleId, CurlEasy>) {
    forall i, j :: 0 <= i < j < |q| && Finishes(q[i], privateOf) && Finishes(q[j], privateOf) ==>
      privateOf[q[i].easyHandle] != privateOf[q[j].easyHandle]
  }

  /** The transfer a finishing message concerns is among the ones the queue finishes. */
  lemma {:induction false} OwnerIsDone(q: seq<CurlMsg>, i: int, privateOf: map<HandleId, CurlEasy>)
    requires 0 <= i < |q| && Finishes(q[i], privateOf)
    ensures privateOf[q[i].easyHandle] in DoneOwners(q, privateOf)
    ensures privateOf[q[i].easyHandle] in DoneOwners(q[..i + 1], privateOf)
    decreases |q|
  {
    if i < |q| - 1 {
      assert q[..|q| - 1][i] == q[i];
      OwnerIsDone(q[..|q| - 1], i, privateOf);
      assert q[..|q| - 1][..i + 1] == q[..i + 1];
    } else {
      assert q[..i + 1] == q;
    }
  }

  /**
   * When a transfer is finished at position i, it is not among the transfers
   * finished before i nor the one of any later finishing message.
   */
  lemma FinishesOnceLater(q: seq<CurlMsg>, i: int, privateOf: map<HandleId, CurlEasy>)
    requires FinishesOnce(q, privateOf) && 0 <= i < |q| && Finishes(q[i], privateOf)
    ensures forall j :: i < j < |q| && Finishes(q[j], privateOf) ==>
              privateOf[q[j].easyHandle] != privateOf[q[i].easyHandle]
    ensures privateOf[q[i].easyHandle] !in DoneOwners(q[..i], privateOf)
  {
    DoneOwnersBefore(q, i, privateOf);
  }

  /** Every transfer finished by a prefix is finished by one of the prefix's messages. */
  lemma {:induction false} DoneOwnersBefore(q: seq<CurlMsg>, i: int, privateOf: map<HandleId, CurlEasy>)
    requires 0 <= i <= |q|
    ensures forall e :: e in DoneOwners(q[..i], privateOf) ==>
              exists k :: 0 <= k < i && Finishes(q[k], privateOf) && privateOf[q[k].easyHandle] == e
    decreases i
  {
    if i > 0 {
      assert q[..i][..i - 1] == q[..i - 1];
      DoneOwnersBefore(q, i - 1, privateOf);
    }
  }

  /** Delivering `a` then `b` emits the signals of `a`, then those of `b`. */
  lemma {:induction false} DoneSignalsAppend(a: seq<CurlMsg>, b: seq<CurlMsg>, privateOf: map<HandleId, CurlEasy>)
    ensures DoneSignals(a + b, privateOf) == DoneSignals(a, privateOf) + DoneSignals(b, privateOf)
    decreases |b|
  {
    if b == [] {
      assert a + b == a;
    } else {
      var n := |b| - 1;
      assert (a + b)[..|a + b| - 1] == a + b[..n];
      DoneSignalsAppend(a, b[..n], privateOf);
      AppendAssociative(DoneSignals(a, privateOf), DoneSignals(b[..n], privateOf), DeliveredSignals(b[n], privateOf));
    }
  }

  /** When no transfer is finished twice, every finished transfer emits exactly one `done`. */
  lemma {:induction false} OneDonePerTransfer(q: seq<CurlMsg>, privateOf: map<HandleId, CurlEasy>)
    requires FinishesOnce(q, privateOf)
    ensures |DoneSignals(q, privateOf)| == |DoneOwners(q, privateOf)|
    decreases |q|
  {
    if q != [] {
      var n := |q| - 1;
      assert FinishesOnce(q[..n], privateOf) by {
        forall i, j | 0 <= i < j < n ensures q[..n][i] == q[i] && q[..n][j] == q[j] { }
      }
      OneDonePerTransfer(q[..n], privateOf);
      if Finishes(q[n], privateOf) {
        FinishesOnceLater(q, n, privateOf);
      }
    }
  }

  /** The i-th `aborted` signal is the i-th transfer's. */
  lemma {:induction false} AbortSignalsAt(order: seq<CurlEasy>, i: int)
    requires 0 <= i < |order|
    ensures AbortSignals(order)[i] == Emission(order[i], Aborted)
    decreases |order|
  {
    if i < |order| - 1 {
      AbortSignalsAt(order[..|order| - 1], i);
    }
  }

  /**
   * Aborting the members of `s` in any enumeration order emits `aborted` for
   * every member, for nothing else, and never twice for the same transfer.
   */
  lemma AbortSignalsOfMembers(order: seq<CurlEasy>, s: set<CurlEasy>)
    requires Enumerates(order, s)
    ensures forall t :: t in s ==> Emission(t, Aborted) in AbortSignals(order)
    ensures forall i :: 0 <= i < |order| ==> AbortSignals(order)[i].sender in s
    ensures forall i, j :: 0 <= i < j < |order| ==> AbortSignals(order)[i] != AbortSignals(order)[j]
  {
    forall i | 0 <= i < |order| ensures AbortSignals(order)[i] == Emission(order[i], Aborted) {
      AbortSignalsAt(order, i);
    }
    forall t | t in s ensures Emission(t, Aborted) in AbortSignals(order) {
      var i :| 0 <= i < |order| && order[i] == t;
      assert AbortSignals(order)[i] == Emission(t, Aborted);
    }
  }

  // ---------------------------------------------------------------------
  // The transfer
  // ---------------------------------------------------------------------

  class CurlEasy {
    const handle: HandleId
    const preferredMulti: CurlMulti?
    const signals: SignalLog
    var runningOnMulti: CurlMulti?
    var isRunning: bool
    var readFunction: Option<DataFunction>
    var writeFunction: Option<DataFunction>
    var headerFunction: Option<DataFunction>
    var seekFunction: Option<SeekFunction>
    var httpHeadersWereSet: bool
    var httpHeaders: Table
    /** The built header list; the empty list stands for the null `curl_slist`. */
    var curlHttpHeaders: seq<Bytes>
    /** The option table of the engine handle. */
    var options: map<CurlOption, OptionValue>

    /** The scheduler this transfer runs on, as a frame. */
    function Multi(): set<CurlMulti>
      reads this
    {
      if runningOnMulti == null then {} else {runningOnMulti}
    }

    /** Running exactly when bound to a scheduler; the header table is a QMap. */
    ghost predicate Valid()
      reads this
    {
      && handle != NULL_HANDLE
      && isRunning == (runningOnMulti != null)
      && Ordered(httpHeaders)
    }

    /** `handle` is the engine's fresh easy handle (`curl_easy_init`), never null. */
    constructor (handle: HandleId, preferredMultiInterface: CurlMulti?, signals: SignalLog)
      requires handle != NULL_HANDLE
      ensures Valid()
      ensures this.handle == handle && preferredMulti == preferredMultiInterface && this.signals == signals
      ensures !isRunning && runningOnMulti == null
      ensures readFunction == None && writeFunction == None && headerFunction == None && seekFunction == None
      ensures !httpHeadersWereSet && httpHeaders == [] && curlHttpHeaders == []
      ensures options == map[CURLOPT_PRIVATE := ThisTransfer,
                             CURLOPT_XFERINFOFUNCTION := Callback(StaticXferInfo),
                             CURLOPT_XFERINFODATA := ThisTransfer]
    {
      this.handle := handle;
      preferredMulti := preferredMultiInterface;
      this.signals := signals;
      runningOnMulti := null;
      isRunning := false;
      readFunction, writeFunction, headerFunction, seekFunction := None, None, None, None;
      httpHeadersWereSet := false;
      httpHeaders := [];
      curlHttpHeaders := [];
      options := map[CURLOPT_PRIVATE := ThisTransfer,
                     CURLOPT_XFERINFOFUNCTION := Callback(StaticXferInfo),
                     CURLOPT_XFERINFODATA := ThisTransfer];
    }

    /** `isRunning()`: the running flag, read without changing anything. */
    method IsRunning() returns (r: bool)
      ensures r == isRunning
    {
      r := isRunning;
    }

    /** `set<T>`: true exactly when the engine accepts the option. */
    method Set(option: CurlOption, parameter: OptionValue, engineResult: CurlCode) returns (ok: bool)
      modifies this`options
      ensures ok <==> engineResult == CURLE_OK
      ensures options == if ok then old(options)[option := parameter] else old(options)
    {
      ok := engineResult == CURLE_OK;
      if ok {
        options := options[option := parameter];
      }
    }

    /** `set(option, QString)`: the engine receives the UTF-8 text as a C string, so it ends at a NUL. */
    method SetString(option: CurlOption, parameter: string, engineResult: CurlCode) returns (ok: bool)
      modifies this`options
      ensures ok <==> engineResult == CURLE_OK
      ensures ok ==> options == old(options)[option := TextValue(CString(Utf8(parameter)))]
      ensures ok && '\0' !in parameter ==> options[option] == TextValue(Utf8(parameter))
      ensures !ok ==> options == old(options)
    {
      ok := Set(option, TextValue(CString(Utf8(parameter))), engineResult);
      if ok && '\0' !in parameter {
        Utf8HasNoNul(parameter);
        CStringWhole(Utf8(parameter));
      }
    }

    /** The scheduler `Perform` registers with: the preferred one, else the thread's default. */
    ghost function TargetMulti(threads: ThreadStorage): CurlMulti?
      reads threads
    {
      if preferredMulti != null then preferredMulti else threads.local
    }

    /** `perform()`: start the transfer unless it is already running. */
    method Perform(threads: ThreadStorage)
      requires Valid()
      modifies this`isRunning, this`runningOnMulti, this`curlHttpHeaders, this`options
      modifies if preferredMulti == null then {threads} else {}
      modifies (if TargetMulti(threads) != null then {TargetMulti(threads)} else {})`transfers
      ensures Valid()
      ensures old(isRunning) ==> unchanged(this) && unchanged(threads)
      ensures old(isRunning) && TargetMulti(threads) != null ==> unchanged(TargetMulti(threads))
      ensures !old(isRunning) ==> isRunning && runningOnMulti == TargetMulti(threads)
      ensures !old(isRunning) && old(TargetMulti(threads)) != null ==>
                runningOnMulti == old(TargetMulti(threads)) &&
                runningOnMulti.transfers == old(TargetMulti(threads).transfers) + {this} &&
                (old(TargetMulti(threads).Registered()) ==> runningOnMulti.Registered())
      ensures !old(isRunning) && old(TargetMulti(threads)) == null ==>
                fresh(runningOnMulti) && threads.local == runningOnMulti &&
                runningOnMulti.transfers == {this} &&
                runningOnMulti.Registered() &&
                runningOnMulti.driverOpen && runningOnMulti.timer == None && runningOnMulti.sockets == map[] &&
                runningOnMulti.messageQueue == [] && runningOnMulti.socketActions == []
      ensures !old(isRunning) && httpHeadersWereSet ==>
                curlHttpHeaders == Lines(httpHeaders) &&
                options == old(options)[CURLOPT_HTTPHEADER := SList(Lines(httpHeaders))]
      ensures !httpHeadersWereSet ==> curlHttpHeaders == old(curlHttpHeaders) && options == old(options)
    {
      if isRunning {
        return;
      }
      isRunning := true;
      RebuildCurlHttpHeaders();
      if preferredMulti != null {
        runningOnMulti := preferredMulti;
      } else {
        runningOnMulti := threads.ThreadInstance();
      }
      runningOnMulti.AddTransfer(this);
    }

    /** `abort()`: stop a running transfer and emit `aborted`; nothing on an idle one. */
    method Abort()
      requires Valid()
      modifies this`isRunning, this`runningOnMulti, Multi()`transfers
      modifies signals`events
      ensures Valid()
      ensures !old(isRunning) ==> unchanged(this) && unchanged(signals)
      ensures old(isRunning) ==>
                !isRunning && runningOnMulti == null && old(runningOnMulti).Deregistered(this) &&
                signals.events == old(signals.events) + [Emission(this, Aborted)]
    {
      if !isRunning {
        return;
      }
      runningOnMulti.RemoveTransfer(this);
      runningOnMulti := null;
      isRunning := false;
      signals.events := signals.events + [Emission(this, Aborted)];
    }

    /** `onCurlMessage`: a DONE message ends the transfer and emits `done(result)`; others change nothing. */
    method OnCurlMessage(message: CurlMsg)
      requires message.msg == CURLMSG_DONE ==> Valid() && isRunning
      modifies (if message.msg == CURLMSG_DONE then {this} else {})`isRunning
      modifies (if message.msg == CURLMSG_DONE then {this} else {})`runningOnMulti
      modifies (if message.msg == CURLMSG_DONE then Multi() else {})`transfers
      modifies (if message.msg == CURLMSG_DONE then {signals} else {})`events
      ensures message.msg == CURLMSG_DONE ==>
                Valid() && !isRunning && runningOnMulti == null && old(runningOnMulti).Deregistered(this) &&
                signals.events == old(signals.events) + [Emission(this, Done(message.result))]
    {
      if message.msg == CURLMSG_DONE {
        runningOnMulti.RemoveTransfer(this);
        runningOnMulti := null;
        isRunning := false;
        signals.events := signals.events + [Emission(this, Done(message.result))];
      }
    }

    /** `~CurlEasy`: leave the scheduler silently (no signal) and free the header list. */
    method Destroy()
      requires Valid()
      modifies this`isRunning, this`runningOnMulti, this`curlHttpHeaders
      modifies Multi()`transfers
      ensures Valid() && !isRunning && runningOnMulti == null && curlHttpHeaders == []
      ensures old(runningOnMulti) != null ==> old(runningOnMulti).Deregistered(this)
    {
      if runningOnMulti != null {
        runningOnMulti.RemoveTransfer(this);
        runningOnMulti := null;
        isRunning := false;
      }
      curlHttpHeaders := [];
    }

    /** `rebuildCurlHttpHeaders`: once a header was ever set or removed, rebuild the list from the table. */
    method RebuildCurlHttpHeaders()
      modifies this`curlHttpHeaders, this`options
      ensures !httpHeadersWereSet ==> curlHttpHeaders == old(curlHttpHeaders) && options == old(options)
      ensures httpHeadersWereSet ==>
                curlHttpHeaders == Lines(httpHeaders) &&
                options == old(options)[CURLOPT_HTTPHEADER := SList(Lines(httpHeaders))]
    {
      if !httpHeadersWereSet {
        return;
      }
      curlHttpHeaders := [];
      for i := 0 to |httpHeaders|
        invariant curlHttpHeaders == Lines(httpHeaders[..i])
        invariant options == old(options)
      {
        assert httpHeaders[..i + 1][..i] == httpHeaders[..i];
        curlHttpHeaders := curlHttpHeaders + [HeaderLine(httpHeaders[i])];
      }
      assert httpHeaders[..|httpHeaders|] == httpHeaders;
      options := options[CURLOPT_HTTPHEADER := SList(curlHttpHeaders)];
    }

    /** `setReadFunction`: bind or unbind; the engine's read callback is armed exactly when bound. */
    method SetReadFunction(f: Option<DataFunction>)
      modifies this`readFunction, this`options
      ensures readFunction == f
      ensures options == old(options)
                [CURLOPT_READFUNCTION := if f.Some? then Callback(StaticRead) else NullValue]
                [CURLOPT_READDATA := if f.Some? then ThisTransfer else NullValue]
    {
      readFunction := f;
      if readFunction.Some? {
        options := options[CURLOPT_READFUNCTION := Callback(StaticRead)][CURLOPT_READDATA := ThisTransfer];
      } else {
        options := options[CURLOPT_READFUNCTION := NullValue][CURLOPT_READDATA := NullValue];
      }
    }

    /** `setWriteFunction`: bind or unbind; the engine's write callback is armed exactly when bound. */
    method SetWriteFunction(f: Option<DataFunction>)
      modifies this`writeFunction, this`options
      ensures writeFunction == f
      ensures options == old(options)
                [CURLOPT_WRITEFUNCTION := if f.Some? then Callback(StaticWrite) else NullValue]
                [CURLOPT_WRITEDATA := if f.Some? then ThisTransfer else NullValue]
    {
      writeFunction := f;
      if writeFunction.Some? {
        options := options[CURLOPT_WRITEFUNCTION := Callback(StaticWrite)][CURLOPT_WRITEDATA := ThisTransfer];
      } else {
        options := options[CURLOPT_WRITEFUNCTION := NullValue][CURLOPT_WRITEDATA := NullValue];
      }
    }

    /** `setHeaderFunction`: bind or unbind; the engine's header callback is armed exactly when bound. */
    method SetHeaderFunction(f: Option<DataFunction>)
      modifies this`headerFunction, this`options
      ensures headerFunction == f
      ensures options == old(options)
                [CURLOPT_HEADERFUNCTION := if f.Some? then Callback(StaticHeader) else NullValue]
                [CURLOPT_HEADERDATA := if f.Some? then ThisTransfer else NullValue]
    {
      headerFunction := f;
      if headerFunction.Some? {
        options := options[CURLOPT_HEADERFUNCTION := Callback(StaticHeader)][CURLOPT_HEADERDATA := ThisTransfer];
      } else {
        options := options[CURLOPT_HEADERFUNCTION := NullValue][CURLOPT_HEADERDATA := NullValue];
      }
    }

    /** `setSeekFunction`: bind or unbind; the engine's seek callback is armed exactly when bound. */
    method SetSeekFunction(f: Option<SeekFunction>)
      modifies this`seekFunction, this`options
      ensures seekFunction == f
      ensures options == old(options)
                [CURLOPT_SEEKFUNCTION := if f.Some? then Callback(StaticSeek) else NullValue]
                [CURLOPT_SEEKDATA := if f.Some? then ThisTransfer else NullValue]
    {
      seekFunction := f;
      if seekFunction.Some? {
        options := options[CURLOPT_SEEKFUNCTION := Callback(StaticSeek)][CURLOPT_SEEKDATA := ThisTransfer];
      } else {
        options := options[CURLOPT_SEEKFUNCTION := NullValue][CURLOPT_SEEKDATA := NullValue];
      }
    }

    /** The write trampoline: forward to the bound function, or accept all offered bytes. */
    function StaticCurlWriteFunction(size: SizeT, nitems: SizeT): (r: SizeT)
      reads this
      ensures writeFunction.None? ==> r == SizeProduct(size, nitems)
      ensures writeFunction.Some? ==> r == writeFunction.value(SizeProduct(size, nitems))
    {
      if writeFunction.Some? then writeFunction.value(SizeProduct(size, nitems)) else SizeProduct(size, nitems)
    }

    /** The header trampoline: forward to the bound function, or accept all offered bytes. */
    function StaticCurlHeaderFunction(size: SizeT, nitems: SizeT): (r: SizeT)
      reads this
      ensures headerFunction.None? ==> r == SizeProduct(size, nitems)
      ensures headerFunction.Some? ==> r == headerFunction.value(SizeProduct(size, nitems))
    {
      if headerFunction.Some? then headerFunction.value(SizeProduct(size, nitems)) else SizeProduct(size, nitems)
    }

    /** The read trampoline: forward to the bound function, or report the whole buffer filled. */
    function StaticCurlReadFunction(size: SizeT, nitems: SizeT): (r: SizeT)
      reads this
      ensures readFunction.None? ==> r == SizeProduct(size, nitems)
      ensures readFunction.Some? ==> r == readFunction.value(SizeProduct(size, nitems))
    {
      if readFunction.Some? then readFunction.value(SizeProduct(size, nitems)) else SizeProduct(size, nitems)
    }

    /** The seek trampoline: forward to the bound function, or answer "cannot seek". */
    function StaticCurlSeekFunction(offset: Long, origin: Int): (r: Int)
      reads this
      ensures seekFunction.None? ==> r == CURL_SEEKFUNC_CANTSEEK
      ensures seekFunction.Some? ==> r == seekFunction.value(offset, origin)
    {
      if seekFunction.Some? then seekFunction.value(offset, origin) else CURL_SEEKFUNC_CANTSEEK
    }

    /** The progress trampoline: emit `progress` with the four counters and let the transfer go on. */
    method StaticCurlXferInfoFunction(downloadTotal: Long, downloadNow: Long, uploadTotal: Long, uploadNow: Long)
      returns (r: Int)
      modifies signals`events
      ensures r == 0
      ensures signals.events == old(signals.events) +
                [Emission(this, Progress(downloadTotal, downloadNow, uploadTotal, uploadNow))]
    {
      signals.events := signals.events + [Emission(this, Progress(downloadTotal, downloadNow, uploadTotal, uploadNow))];
      r := 0;
    }

    /** `httpHeaderRaw`: the stored value, or empty when the header is absent. */
    function HttpHeaderRaw(header: string): (r: Bytes)
      reads this
      ensures header !in Names(httpHeaders) ==> r == []
      ensures header in Names(httpHeaders) ==> Entry(header, r) in httpHeaders
    {
      Lookup(httpHeaders, header)
    }

    /** `hasHttpHeader`: whether the table holds the header. */
    function HasHttpHeader(header: string): (r: bool)
      reads this
      ensures r <==> header in Names(httpHeaders)
    {
      Find(httpHeaders, header).Some?
    }

    /** `setHttpHeaderRaw`: store the value and mark the table for rebuilding. */
    method SetHttpHeaderRaw(header: string, encodedValue: Bytes)
      requires Valid()
      modifies this`httpHeaders, this`httpHeadersWereSet
      ensures Valid() && httpHeadersWereSet
      ensures httpHeaders == Insert(old(httpHeaders), header, encodedValue)
      ensures HasHttpHeader(header) && HttpHeaderRaw(header) == encodedValue
      ensures forall h :: h != header ==> HttpHeaderRaw(h) == old(HttpHeaderRaw(h))
    {
      httpHeaders := Insert(httpHeaders, header, encodedValue);
      httpHeadersWereSet := true;
      forall h ensures Find(httpHeaders, h) == if h == header then Some(encodedValue) else Find(old(httpHeaders), h) {
        FindInsert(old(httpHeaders), header, encodedValue, h);
      }
    }

    /** `removeHttpHeader`: drop the header (if present) and mark the table for rebuilding. */
    method RemoveHttpHeader(header: string)
      requires Valid()
      modifies this`httpHeaders, this`httpHeadersWereSet
      ensures Valid() && httpHeadersWereSet
      ensures httpHeaders == Remove(old(httpHeaders), header)
      ensures !HasHttpHeader(header)
      ensures !old(HasHttpHeader(header)) ==> httpHeaders == old(httpHeaders)
      ensures forall h :: h != header ==> HttpHeaderRaw(h) == old(HttpHeaderRaw(h))
    {
      httpHeaders := Remove(httpHeaders, header);
      httpHeadersWereSet := true;
      forall h ensures Find(httpHeaders, h) == if h == header then None else Find(old(httpHeaders), h) {
        FindRemove(old(httpHeaders), header, h);
      }
    }
  }

  // ---------------------------------------------------------------------
  // The scheduler
  // ---------------------------------------------------------------------

  class CurlMulti {
    /** The transfers registered here (`transfers_`). */
    var transfers: set<CurlEasy>
    /** The driver handle is alive (not yet `curl_multi_cleanup`ed). */
    var driverOpen: bool
    /** The last request to the single-shot timer: `Some(ms)` for a start, `None` for a stop (its firing is not modelled). */
    var timer: Option<Int>
    /** The per-socket records the driver has assigned to descriptors. */
    var sockets: map<int, SocketRecord>
    /** The driver's queue of finished-transfer messages. */
    var messageQueue: seq<CurlMsg>
    /** Every `curl_multi_socket_action(descriptor, events)` call made, in order. */
    var socketActions: seq<(int, int)>

    ghost predicate Initial()
      reads this
    {
      && transfers == {} && driverOpen && timer == None
      && sockets == map[] && messageQueue == [] && socketActions == []
    }

    /** Every registered transfer is well formed and running on this scheduler. */
    ghost predicate Registered()
      reads this, transfers
    {
      forall t :: t in transfers ==> t.Valid() && t.isRunning && t.runningOnMulti == this
    }

    constructor ()
      ensures Initial()
    {
      transfers, driverOpen, timer := {}, true, None;
      sockets, messageQueue, socketActions := map[], [], [];
    }

    twostate predicate Registering(t: CurlEasy)
      reads this
    {
      transfers == old(transfers) + {t}
    }

    twostate predicate Deregistered(t: CurlEasy)
      reads this
    {
      transfers == old(transfers) - {t}
    }

    /** `addTransfer`: register; registering twice keeps one membership. */
    method AddTransfer(transfer: CurlEasy)
      modifies this`transfers
      ensures Registering(transfer)
    {
      transfers := transfers + {transfer};
    }

    /** `removeTransfer`: deregister a member; nothing for a non-member. */
    method RemoveTransfer(transfer: CurlEasy)
      modifies this`transfers
      ensures Deregistered(transfer)
      ensures transfer !in old(transfers) ==> unchanged(this)
    {
      if transfer in transfers {
        transfers := transfers - {transfer};
      }
    }

    /**
     * `~CurlMulti`: abort members until none is left, then clean up the driver.
     * Each abort removes its transfer, so the loop ends; every member emits one `aborted`.
     */
    method Destroy(ghost log: SignalLog)
      requires Registered()
      requires forall t :: t in transfers ==> t.signals == log
      modifies this`transfers, this`driverOpen, transfers`isRunning, transfers`runningOnMulti, log`events
      ensures transfers == {} && !driverOpen
      ensures forall t :: t in old(transfers) ==> t.Valid() && !t.isRunning && t.runningOnMulti == null
      ensures exists order :: Enumerates(order, old(transfers)) &&
                log.events == old(log.events) + AbortSignals(order)
    {
      ghost var order: seq<CurlEasy> := [];
      while transfers != {}
        invariant Registered()
        invariant transfers <= old(transfers)
        invariant forall t :: t in transfers ==> t.signals == log
        invariant forall i :: 0 <= i < |order| ==>
                    order[i] in old(transfers) && order[i] !in transfers &&
                    order[i].Valid() && !order[i].isRunning && order[i].runningOnMulti == null
        invariant forall t :: t in old(transfers) ==> t in transfers || t in order
        invariant forall i, j :: 0 <= i < j < |order| ==> order[i] != order[j]
        invariant log.events == old(log.events) + AbortSignals(order)
        decreases |transfers|
      {
        var t :| t in transfers;
        assert (order + [t])[..|order|] == order;
        AppendAssociative(old(log.events), AbortSignals(order), [Emission(t, Aborted)]);
        t.Abort();
        order := order + [t];
      }
      driverOpen := false;
    }

    /**
     * `curlSocketFunction`: the engine changes its interest in a descriptor.
     * REMOVE or NONE for an unknown descriptor does nothing; REMOVE destroys
     * the record; anything else creates the record if need be and applies the request.
     */
    method CurlSocketFunction(socketDescriptor: int, what: int) returns (r: int)
      modifies this`sockets
      ensures r == 0
      ensures socketDescriptor !in old(sockets) && (what == CURL_POLL_REMOVE || what == CURL_POLL_NONE) ==>
                sockets == old(sockets)
      ensures what == CURL_POLL_REMOVE ==> sockets == old(sockets) - {socketDescriptor}
      ensures what != CURL_POLL_REMOVE && (socketDescriptor in old(sockets) || what != CURL_POLL_NONE) ==>
                socketDescriptor in sockets &&
                sockets == old(sockets)[socketDescriptor := ApplyInterest(
                  if socketDescriptor in old(sockets) then old(sockets)[socketDescriptor]
                  else NewRecord(socketDescriptor), what)]
    {
      var socket: SocketRecord;
      if socketDescriptor !in sockets {
        if what == CURL_POLL_REMOVE || what == CURL_POLL_NONE {
          return 0;
        }
        socket := NewRecord(socketDescriptor);
        sockets := sockets[socketDescriptor := socket];
      } else {
        socket := sockets[socketDescriptor];
      }

      if what == CURL_POLL_REMOVE {
        sockets := sockets - {socketDescriptor};
        return 0;
      }

      if what == CURL_POLL_IN || what == CURL_POLL_INOUT {
        socket := socket.(readNotifier := Some(Notifier(true)));
      }
      if what == CURL_POLL_OUT || what == CURL_POLL_INOUT {
        socket := socket.(writeNotifier := Some(Notifier(true)));
      }
      if what == CURL_POLL_IN {
        if socket.writeNotifier.Some? {
          socket := socket.(writeNotifier := Some(Notifier(false)));
        }
      } else if what == CURL_POLL_OUT {
        if socket.readNotifier.Some? {
          socket := socket.(writeNotifier := Some(Notifier(false)));
        }
      }
      sockets := sockets[socketDescriptor := socket];
      r := 0;
    }

    /** `curlTimerFunction`: a non-negative timeout (re)arms the single-shot timer, a negative one stops it. */
    method CurlTimerFunction(timeoutMsec: Int) returns (r: int)
      modifies this`timer
      ensures r == 0
      ensures timer == if timeoutMsec >= 0 then Some(timeoutMsec) else None
    {
      if timeoutMsec >= 0 {
        timer := Some(timeoutMsec);
      } else {
        timer := None;
      }
      r := 0;
    }

    /** `staticCurlTimerFunction`: clamp the engine's `long` timeout and pass it on. */
    method StaticCurlTimerFunction(timeoutMs: Long) returns (r: int)
      modifies this`timer
      ensures r == 0
      ensures timeoutMs < 0 ==> timer == None
      ensures 0 <= timeoutMs <= INT_MAX ==> timer == Some(timeoutMs)
      ensures timeoutMs > INT_MAX ==> timer == Some(INT_MAX)
    {
      r := CurlTimerFunction(ClampTimeout(timeoutMs));
    }

    /** `curl_multi_info_read`: pop the oldest message, with the number still queued. */
    method InfoRead() returns (message: Option<CurlMsg>, messagesLeft: nat)
      modifies this`messageQueue
      ensures old(messageQueue) == [] ==> message == None && messageQueue == [] && messagesLeft == 0
      ensures old(messageQueue) != [] ==>
                message == Some(old(messageQueue)[0]) && messageQueue == old(messageQueue)[1..] &&
                messagesLeft == |messageQueue|
    {
      if messageQueue == [] {
        message, messagesLeft := None, 0;
      } else {
        message := Some(messageQueue[0]);
        messageQueue := messageQueue[1..];
        messagesLeft := |messageQueue|;
      }
    }

    /**
     * What the engine guarantees about the messages it reports: a message
     * that finishes a transfer concerns a transfer registered here (whose
     * signals go to `log`), and no transfer is finished twice.
     */
    ghost predicate Reportable(q: seq<CurlMsg>, privateOf: map<HandleId, CurlEasy>, log: SignalLog)
      reads this
    {
      && (forall i :: 0 <= i < |q| && Finishes(q[i], privateOf) ==> privateOf[q[i].easyHandle] in transfers)
      && FinishesOnce(q, privateOf)
      && ReportsTo(q, privateOf, log)
    }

    /** The state after every message of `q` was delivered, in order. */
    twostate predicate Drained(q: seq<CurlMsg>, privateOf: map<HandleId, CurlEasy>, log: SignalLog)
      reads this, DoneOwners(q, privateOf), log
    {
      && messageQueue == []
      && log.events == old(log.events) + DoneSignals(q, privateOf)
      && transfers == old(transfers) - DoneOwners(q, privateOf)
      && (forall e :: e in DoneOwners(q, privateOf) ==> !e.isRunning && e.runningOnMulti == null)
    }

    /**
     * `curlSocketAction`: one step of the engine for a descriptor and event
     * mask (the step's messages are `produced`; its return code is not looked
     * at), then deliver every queued message to its transfer, in queue order.
     * `privateOf` is the engine's `CURLINFO_PRIVATE` lookup. Only the
     * transfers the queue finishes change.
     */
    method CurlSocketAction(socketDescriptor: int, eventsBitmask: int, produced: seq<CurlMsg>,
                            privateOf: map<HandleId, CurlEasy>, ghost log: SignalLog)
      requires Registered()
      requires Reportable(messageQueue + produced, privateOf, log)
      modifies this`socketActions, this`messageQueue, this`transfers, log`events
      modifies DoneOwners(messageQueue + produced, privateOf)`isRunning
      modifies DoneOwners(messageQueue + produced, privateOf)`runningOnMulti
      ensures socketActions == old(socketActions) + [(socketDescriptor, eventsBitmask)]
      ensures Drained(old(messageQueue) + produced, privateOf, log)
      ensures Registered()
    {
      socketActions := socketActions + [(socketDescriptor, eventsBitmask)];
      messageQueue := messageQueue + produced;
      ghost var q := messageQueue;
      ghost var p := 0;
      var more := true;
      while more
        invariant DeliveredUpTo(q, p, privateOf, log, old(transfers), old(log.events))
        invariant !more ==> messageQueue == []
        invariant socketActions == old(socketActions) + [(socketDescriptor, eventsBitmask)]
        decreases |messageQueue|, more
      {
        if p < |q| && Finishes(q[p], privateOf) {
          OwnerIsDone(q, p, privateOf);
        }
        more, p := DeliverNext(q, p, privateOf, log, old(transfers), old(log.events));
      }
      assert q[..p] == q;
    }

    /**
     * The invariant of the delivery loop: the first `p` messages of `q` were
     * delivered, relative to the registrations `transfers0` and signals
     * `events0` from before the loop.
     */
    ghost predicate DeliveredUpTo(q: seq<CurlMsg>, p: int, privateOf: map<HandleId, CurlEasy>, log: SignalLog,
                                  transfers0: set<CurlEasy>, events0: seq<Emission>)
      reads this, transfers, privateOf.Values, log
    {
      && 0 <= p <= |q| && messageQueue == q[p..]
      && FinishesOnce(q, privateOf) && ReportsTo(q, privateOf, log)
      && Registered()
      && (forall j :: p <= j < |q| && Finishes(q[j], privateOf) ==> privateOf[q[j].easyHandle] in transfers)
      && (forall e :: e in transfers ==> e in transfers0 && e !in DoneOwners(q[..p], privateOf))
      && (forall e :: e in transfers0 && e !in DoneOwners(q[..p], privateOf) ==> e in transfers)
      && (forall e :: e in DoneOwners(q[..p], privateOf) ==> !e.isRunning && e.runningOnMulti == null)
      && log.events == events0 + DoneSignals(q[..p], privateOf)
    }

    /**
     * One turn of the delivery loop: take the oldest message (stop when there
     * is none) and dispatch it; go on while the engine says messages are left.
     */
    method DeliverNext(ghost q: seq<CurlMsg>, ghost p: int, privateOf: map<HandleId, CurlEasy>, ghost log: SignalLog,
                       ghost transfers0: set<CurlEasy>, ghost events0: seq<Emission>)
      returns (more: bool, ghost p': int)
      requires DeliveredUpTo(q, p, privateOf, log, transfers0, events0)
      modifies this`messageQueue, this`transfers, log`events
      modifies (if p < |q| && Finishes(q[p], privateOf) then {privateOf[q[p].easyHandle]} else {})`isRunning
      modifies (if p < |q| && Finishes(q[p], privateOf) then {privateOf[q[p].easyHandle]} else {})`runningOnMulti
      ensures DeliveredUpTo(q, p', privateOf, log, transfers0, events0)
      ensures !more ==> messageQueue == []
      ensures more ==> |messageQueue| < old(|messageQueue|)
      ensures |messageQueue| <= old(|messageQueue|)
    {
      var message, messagesLeft := InfoRead();
      if message.None? {
        return false, p;
      }
      more := messagesLeft != 0;
      assert message.value == q[p];
      DeliveryStep(q, p, privateOf);
      if Finishes(q[p], privateOf) {
        FinishesOnceLater(q, p, privateOf);
      }
      AppendAssociative(events0, DoneSignals(q[..p], privateOf), DeliveredSignals(q[p], privateOf));
      Dispatch(message.value, privateOf, log);
      p' := p + 1;
    }

    /**
     * The body of the delivery loop: a message without an easy handle, or
     * whose handle carries no transfer, is skipped; any other goes to its
     * transfer's `onCurlMessage`.
     */
    method Dispatch(message: CurlMsg, privateOf: map<HandleId, CurlEasy>, ghost log: SignalLog)
      requires Registered()
      requires Finishes(message, privateOf) ==>
                 privateOf[message.easyHandle] in transfers && privateOf[message.easyHandle].signals == log
      modifies this`transfers, log`events
      modifies (if Finishes(message, privateOf) then {privateOf[message.easyHandle]} else {})`isRunning
      modifies (if Finishes(message, privateOf) then {privateOf[message.easyHandle]} else {})`runningOnMulti
      ensures Registered()
      ensures !Finishes(message, privateOf) ==> transfers == old(transfers) && log.events == old(log.events)
      ensures Finishes(message, privateOf) ==>
                var transfer := privateOf[message.easyHandle];
                && transfers == old(transfers) - {transfer}
                && !transfer.isRunning && transfer.runningOnMulti == null
                && log.events == old(log.events) + [Emission(transfer, Done(message.result))]
    {
      if message.easyHandle == NULL_HANDLE || message.easyHandle !in privateOf {
        return;
      }
      var transfer := privateOf[message.easyHandle];
      transfer.OnCurlMessage(message);
    }

    /** The timer slot: a driver action for the timeout sentinel with no events. */
    method CurlMultiTimeout(produced: seq<CurlMsg>, privateOf: map<HandleId, CurlEasy>, ghost log: SignalLog)
      requires Registered()
      requires Reportable(messageQueue + produced, privateOf, log)
      modifies this`socketActions, this`messageQueue, this`transfers, log`events
      modifies DoneOwners(messageQueue + produced, privateOf)`isRunning
      modifies DoneOwners(messageQueue + produced, privateOf)`runningOnMulti
      ensures socketActions == old(socketActions) + [(CURL_SOCKET_TIMEOUT, 0)]
      ensures Drained(old(messageQueue) + produced, privateOf, log)
      ensures Registered()
    {
      CurlSocketAction(CURL_SOCKET_TIMEOUT, 0, produced, privateOf, log);
    }

    /** The read-notifier slot: a driver action with `CURL_CSELECT_IN`. */
    method SocketReadyRead(socketDescriptor: int, produced: seq<CurlMsg>, privateOf: map<HandleId, CurlEasy>, ghost log: SignalLog)
      requires Registered()
      requires Reportable(messageQueue + produced, privateOf, log)
      modifies this`socketActions, this`messageQueue, this`transfers, log`events
      modifies DoneOwners(messageQueue + produced, privateOf)`isRunning
      modifies DoneOwners(messageQueue + produced, privateOf)`runningOnMulti
      ensures socketActions == old(socketActions) + [(socketDescriptor, CURL_CSELECT_IN)]
      ensures Drained(old(messageQueue) + produced, privateOf, log)
      ensures Registered()
    {
      CurlSocketAction(socketDescriptor, CURL_CSELECT_IN, produced, privateOf, log);
    }

    /** The write-notifier slot: a driver action with `CURL_CSELECT_OUT`. */
    method SocketReadyWrite(socketDescriptor: int, produced: seq<CurlMsg>, privateOf: map<HandleId, CurlEasy>, ghost log: SignalLog)
      requires Registered()
      requires Reportable(messageQueue + produced, privateOf, log)
      modifies this`socketActions, this`messageQueue, this`transfers, log`events
      modifies DoneOwners(messageQueue + produced, privateOf)`isRunning
      modifies DoneOwners(messageQueue + produced, privateOf)`runningOnMulti
      ensures socketActions == old(socketActions) + [(socketDescriptor, CURL_CSELECT_OUT)]
      ensures Drained(old(messageQueue) + produced, privateOf, log)
      ensures Registered()
    {
      CurlSocketAction(socketDescriptor, CURL_CSELECT_OUT, produced, privateOf, log);
    }

    /** The exception slot: a driver action with `CURL_CSELECT_ERR`. */
    method SocketException(socketDescriptor: int, produced: seq<CurlMsg>, privateOf: map<HandleId, CurlEasy>, ghost log: SignalLog)
      requires Registered()
      requires Reportable(messageQueue + produced, privateOf, log)
      modifies this`socketActions, this`messageQueue, this`transfers, log`events
      modifies DoneOwners(messageQueue + produced, privateOf)`isRunning
      modifies DoneOwners(messageQueue + produced, privateOf)`runningOnMulti
      ensures socketActions == old(socketActions) + [(socketDescriptor, CURL_CSELECT_ERR)]
      ensures Drained(old(messageQueue) + produced, privateOf, log)
      ensures Registered()
    {
      CurlSocketAction(socketDescriptor, CURL_CSELECT_ERR, produced, privateOf, log);
    }
  }

  // ---------------------------------------------------------------------
  // The per-thread default scheduler
  // ---------------------------------------------------------------------

  /** `QThreadStorage<shared_ptr<CurlMulti>>` for the current thread. */
  class ThreadStorage {
    var local: CurlMulti?

    constructor ()
      ensures local == null
    {
      local := null;
    }

    /** `threadInstance`: create the thread's scheduler on first use, then return that same one. */
    method ThreadInstance() returns (multi: CurlMulti)
      modifies this
      ensures local == multi
      ensures old(local) != null ==> multi == old(local)
      ensures old(local) == null ==> fresh(multi) && multi.Initial()
    {
      if local == null {
        local := new CurlMulti();
      }
      multi := local;
    }
  }
}
