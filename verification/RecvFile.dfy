/** The receiving engine: socket to pipe to file, as RecvFileOp runs it for STOR and the
    client's RecvFileImpl for RETR. */
module RecvFile {
  import opened Text
  import opened Division

  const LEN := 65536

  /** `incoming` is what has arrived on the data socket and not been read; `offset` and
      `progress` are kept by the client only. */
  datatype Receiver = Receiver(incoming: string, pipe: string, file: string, offset: nat, progress: seq<int>)

  /** What one splice from the socket reports, and for a positive return how the pipe is
      emptied: `n` and the `parts` stand for the counts the kernel picks. */
  datatype Splice = Interrupted | WouldBlock | Failed | Moved(n: nat, parts: seq<nat>)

  datatype Status = WaitingForReadable | DoRead | Finished | UnexpectedTerminate

  // the count a splice of at most `limit > 0` bytes returns
  function Count(n: nat, limit: nat): (k: nat)
    requires limit > 0
    ensures 1 <= k <= limit
  {
    if n == 0 then 1 else if n > limit then limit else n
  }

  // 64-bit two's complement, the range of off64_t
  function Wrap(n: int): int {
    var m := n % 0x1_0000_0000_0000_0000;
    if m < LONG_BOUND then m else m - 0x1_0000_0000_0000_0000
  }

  // the value handed to the progress bar: off64_t arithmetic, division toward zero
  function Percent(offset: nat, total: nat): int
    requires total > 0
  {
    Quotient(Wrap(offset * 100), total)
  }

  function Quotient(x: int, d: nat): int
    requires d > 0
  {
    if x >= 0 then x / d else -(-x / d)
  }

  // splice(socket, pipe): at most LEN bytes
  function ToPipe(r: Receiver, n: nat): Receiver
    requires r.incoming != ""
  {
    var k := Count(n, if |r.incoming| < LEN then |r.incoming| else LEN);
    r.(incoming := r.incoming[k..], pipe := r.pipe + r.incoming[..k])
  }

  // splice(pipe, file) followed by the update hook, if there is one
  function ToFile(r: Receiver, n: nat, total: Option<nat>): Receiver
    requires r.pipe != "" && total != Some(0)
  {
    var k := Count(n, |r.pipe|);
    r.(pipe := r.pipe[k..], file := r.file + r.pipe[..k], offset := r.offset + k,
       progress := if total.None? then r.progress else r.progress + [Percent(r.offset + k, total.value)])
  }

  // the inner loop
  function Flush(r: Receiver, parts: seq<nat>, total: Option<nat>): Receiver
    requires total != Some(0)
    decreases |r.pipe|
  {
    if r.pipe == "" then r
    else if parts == [] then ToFile(r, |r.pipe|, total)
    else Flush(ToFile(r, parts[0], total), parts[1..], total)
  }

  // the outer loop; splice returns 0 on an exhausted socket
  function Drain(r: Receiver, script: seq<Splice>, total: Option<nat>): (Receiver, Status)
    requires total != Some(0)
    decreases |script|
  {
    if script == [] || script[0].WouldBlock? then (r, WaitingForReadable)
    else if script[0].Failed? then (r, UnexpectedTerminate)
    else if script[0].Interrupted? then Drain(r, script[1..], total)
    else if r.incoming == "" then (r, WaitingForReadable)
    else Drain(Flush(ToPipe(r, script[0].n), script[0].parts, total), script[1..], total)
  }

  // deal_event: a readable socket without bytes was closed by the peer
  function Deal(r: Receiver, script: seq<Splice>, total: Option<nat>): (Receiver, Status)
    requires r.incoming == "" || total != Some(0)
  {
    if r.incoming == "" then (r, Finished) else Drain(r, script, total)
  }

  // ---------------------------------------------------------------- conservation

  /** Everything that has ever arrived. */
  function Stream(r: Receiver): string { r.file + r.pipe + r.incoming }

  lemma ToFileKeeps(r: Receiver, n: nat, total: Option<nat>)
    requires r.pipe != "" && total != Some(0)
    ensures Stream(ToFile(r, n, total)) == Stream(r)
  {
    var k := Count(n, |r.pipe|);
    assert r.pipe == r.pipe[..k] + r.pipe[k..];
    assert r.file + r.pipe[..k] + r.pipe[k..] == r.file + (r.pipe[..k] + r.pipe[k..]);
  }

  lemma ToPipeKeeps(r: Receiver, n: nat)
    requires r.incoming != ""
    ensures Stream(ToPipe(r, n)) == Stream(r)
    ensures |ToPipe(r, n).incoming| < |r.incoming|
  {
    var k := |ToPipe(r, n).pipe| - |r.pipe|;
    assert r.incoming == r.incoming[..k] + r.incoming[k..];
    assert r.file + (r.pipe + r.incoming[..k]) + r.incoming[k..] ==
      r.file + r.pipe + (r.incoming[..k] + r.incoming[k..]);
  }

  /** Between socket reads nothing stays in the pipe, and the client's count is the file's length. */
  ghost predicate Settled(r: Receiver) { r.pipe == "" && r.offset == |r.file| }

  /** What the progress bar was given: never more than 100, never less than before or than 0,
      last the percentage of what is in the file, and 100 only once `total` bytes are. */
  ghost predicate ProgressOk(r: Receiver, total: nat) {
    && (forall i, j :: 0 <= i < j < |r.progress| ==> r.progress[i] <= r.progress[j])
    && (forall p :: p in r.progress ==> 0 <= p <= 100)
    && (r.progress != [] ==> total > 0 && r.progress[|r.progress| - 1] == Percent(r.offset, total))
    && (r.offset > 0 ==> r.progress != [])
    && (100 in r.progress ==> r.offset == total)
  }

  /** The bar has been given true percentages of what can arrive. */
  ghost predicate Honest(r: Receiver, total: Option<nat>) {
    total.Some? && BarFits(total.value) && |Stream(r)| <= total.value && ProgressOk(r, total.value)
  }

  /** The percentages of a file of this size are computed without overflow. */
  predicate BarFits(total: nat) { total * 100 < LONG_BOUND }

  lemma PercentIs(k: nat, total: nat)
    requires k <= total && total > 0 && BarFits(total)
    ensures Percent(k, total) == k * 100 / total
  {
    assert Wrap(k * 100) == k * 100;
  }

  lemma PercentFacts(a: nat, b: nat, total: nat)
    requires a <= b <= total && total > 0 && BarFits(total)
    ensures 0 <= Percent(a, total) <= Percent(b, total) <= 100
    ensures Percent(b, total) == 100 ==> b == total
  {
    PercentIs(a, total);
    PercentIs(b, total);
    HundredthsOf(a, b, total);
  }

  lemma HundredthsOf(a: nat, b: nat, total: nat)
    requires a <= b <= total && total > 0
    ensures 0 <= a * 100 / total <= b * 100 / total <= 100
    ensures b * 100 / total == 100 ==> b == total
  {
    QuotientAbove(a * 100, 0, total);
    QuotientMono(a * 100, b * 100, total);
    AtMostHundred(b, total);
  }

  lemma AtMostHundred(b: nat, total: nat)
    requires b <= total && total > 0
    ensures b * 100 / total <= 100
    ensures b < total ==> b * 100 / total <= 99
  {
    QuotientBelow(b * 100, 100, total);
    if b < total {
      QuotientBelow(b * 100, 99, total);
    }
  }

  /** Exactly when the percentages are percentages: otherwise a product that does not fit
      makes one of them negative. */
  lemma PercentIff(total: nat)
    requires 0 < total < LONG_BOUND
    ensures (forall k: nat :: k <= total ==> 0 <= Percent(k, total) <= 100) <==> BarFits(total)
  {
    if BarFits(total) {
      forall k: nat | k <= total ensures 0 <= Percent(k, total) <= 100 {
        PercentFacts(k, k, total);
      }
    } else {
      NegativePercent(total);
      assert Percent(BadOffset(total), total) < 0;
    }
  }

  /** An offset whose product is negative and not smaller in size than `total`. */
  function BadOffset(total: nat): nat {
    if total < 0x2000_0000_0000_0000 then LONG_BOUND / 100 + 1 else 0x2000_0000_0000_0000
  }

  lemma NegativePercent(total: nat)
    requires 0 < total < LONG_BOUND && !BarFits(total)
    ensures BadOffset(total) <= total && Percent(BadOffset(total), total) < 0
  {
    var k := BadOffset(total);
    assert Wrap(k * 100) <= -0x2000_0000_0000_0000 && total <= -Wrap(k * 100);
    QuotientAbove(-Wrap(k * 100), 1, total);
  }

  lemma ToFileProgress(r: Receiver, n: nat, total: nat)
    requires r.pipe != "" && total > 0
    requires r.offset == |r.file| && |Stream(r)| <= total && BarFits(total) && ProgressOk(r, total)
    ensures var q := ToFile(r, n, Some(total)); q.offset == |q.file| && ProgressOk(q, total)
  {
    var q := ToFile(r, n, Some(total));
    PercentFacts(r.offset, q.offset, total);
    assert 100 in r.progress ==> r.offset == total;
  }

  /** The inner loop empties the pipe into the file, byte for byte. */
  lemma {:induction false} FlushKeeps(r: Receiver, parts: seq<nat>, total: Option<nat>)
    requires total != Some(0) && r.offset == |r.file|
    ensures var q := Flush(r, parts, total);
            && Settled(q) && Stream(q) == Stream(r) && q.incoming == r.incoming
            && (Honest(r, total) ==> Honest(q, total))
    decreases |r.pipe|
  {
    if r.pipe != "" {
      var n := if parts == [] then |r.pipe| else parts[0];
      ToFileKeeps(r, n, total);
      if Honest(r, total) {
        ToFileProgress(r, n, total.value);
      }
      if parts != [] {
        FlushKeeps(ToFile(r, n, total), parts[1..], total);
      }
    }
  }

  // one round of the outer loop
  lemma RoundKeeps(r: Receiver, n: nat, parts: seq<nat>, total: Option<nat>)
    requires total != Some(0) && Settled(r) && r.incoming != ""
    ensures var q := Flush(ToPipe(r, n), parts, total);
            && Settled(q) && Stream(q) == Stream(r) && r.file <= q.file
            && (Honest(r, total) ==> Honest(q, total))
  {
    var p := ToPipe(r, n);
    ToPipeKeeps(r, n);
    FlushKeeps(p, parts, total);
    var q := Flush(p, parts, total);
    FileGrows(r, q);
  }

  lemma FileGrows(r: Receiver, q: Receiver)
    requires r.pipe == "" && q.pipe == "" && Stream(r) == Stream(q) && |q.incoming| <= |r.incoming|
    ensures r.file <= q.file
  {
    assert r.file + r.incoming == Stream(r) && q.file + q.incoming == Stream(q);
    PrefixOrder(r.file, r.incoming, q.file, q.incoming);
  }

  lemma PrefixOrder(x: string, xs: string, y: string, ys: string)
    requires x + xs == y + ys && |ys| <= |xs|
    ensures x <= y
  {
    assert x == (x + xs)[..|x|] && y == (x + xs)[..|y|];
  }

  /** Conservation through one whole event: the file grows by exactly what left the socket,
      in order, and the pipe is empty again. */
  lemma {:induction false} DrainKeeps(r: Receiver, script: seq<Splice>, total: Option<nat>)
    requires total != Some(0) && Settled(r)
    ensures var q := Drain(r, script, total).0;
            && Settled(q) && Stream(q) == Stream(r) && r.file <= q.file
            && (Honest(r, total) ==> Honest(q, total))
    decreases |script|
  {
    if script != [] {
      if script[0].Interrupted? {
        DrainKeeps(r, script[1..], total);
      } else if script[0].Moved? && r.incoming != "" {
        RoundKeeps(r, script[0].n, script[0].parts, total);
        DrainKeeps(Flush(ToPipe(r, script[0].n), script[0].parts, total), script[1..], total);
      }
    }
  }

  // ---------------------------------------------------------------- how an event ends

  /** The bytes left in the socket after these calls; a splice takes at most LEN of them. */
  function Unread(n: nat, calls: seq<Splice>): (left: nat)
    ensures left <= n
    decreases |calls|
  {
    if calls == [] then n
    else if calls[0].Moved? && n > 0 then
      Unread(n - Count(calls[0].n, if n < LEN then n else LEN), calls[1..])
    else Unread(n, calls[1..])
  }

  /** With n bytes unread the loop makes k calls and then ends: the next one would block, fails
      or finds the socket empty, or there is none. */
  ghost predicate EndsAfter(n: nat, script: seq<Splice>, k: int) {
    && 0 <= k <= |script|
    && (forall j :: 0 <= j < k ==>
          script[j].Interrupted? || (script[j].Moved? && Unread(n, script[..j]) > 0))
    && (k < |script| ==>
          script[k].WouldBlock? || script[k].Failed? || (script[k].Moved? && Unread(n, script[..k]) == 0))
  }

  /** A splice fails before one would block or the socket is empty. */
  ghost predicate FailsFirst(n: nat, script: seq<Splice>) {
    exists k :: EndsAfter(n, script, k) && k < |script| && script[k].Failed?
  }

  lemma EndsOnce(n: nat, script: seq<Splice>, k: int, m: int)
    requires EndsAfter(n, script, k) && EndsAfter(n, script, m)
    ensures k == m
  {
  }

  // the first call is no end: the rest of the loop runs on what it leaves
  lemma EndsLater(n: nat, script: seq<Splice>, left: nat, k: nat)
    requires script != [] && (script[0].Interrupted? || (script[0].Moved? && n > 0))
    requires left == Unread(n, script[..1]) && EndsAfter(left, script[1..], k)
    ensures EndsAfter(n, script, k + 1) && Unread(n, script[..k + 1]) == Unread(left, script[1..][..k])
  {
    forall j | 0 <= j <= k ensures Unread(n, script[..j + 1]) == Unread(left, script[1..][..j]) {
      assert script[..j + 1][1..] == script[1..][..j];
      assert script[..1][1..] == [];
    }
    forall j | 0 <= j < k + 1
      ensures script[j].Interrupted? || (script[j].Moved? && Unread(n, script[..j]) > 0)
    {
      if j > 0 {
        assert script[j] == script[1..][j - 1];
      }
    }
  }

  /** What one event does with the bytes that are there: it makes as many calls as it can, ends
      unexpectedly exactly if the next one fails, and leaves exactly what these calls did not take. */
  lemma {:induction false} DrainEnds(r: Receiver, script: seq<Splice>, total: Option<nat>) returns (k: nat)
    requires total != Some(0)
    ensures EndsAfter(|r.incoming|, script, k)
    ensures var (q, status) := Drain(r, script, total);
            && |q.incoming| == Unread(|r.incoming|, script[..k])
            && status == (if k < |script| && script[k].Failed? then UnexpectedTerminate else WaitingForReadable)
    decreases |script|
  {
    if script == [] || script[0].WouldBlock? || script[0].Failed? || (script[0].Moved? && r.incoming == "") {
      k := 0;
    } else {
      var q := if script[0].Moved? then Flush(ToPipe(r, script[0].n), script[0].parts, total) else r;
      if script[0].Moved? {
        FlushUnread(ToPipe(r, script[0].n), script[0].parts, total);
      }
      assert script[..1][1..] == [];
      k := DrainEnds(q, script[1..], total);
      EndsLater(|r.incoming|, script, |q.incoming|, k);
      k := k + 1;
    }
  }

  lemma {:induction false} FlushUnread(r: Receiver, parts: seq<nat>, total: Option<nat>)
    requires total != Some(0)
    ensures Flush(r, parts, total).incoming == r.incoming
    decreases |r.pipe|
  {
    if r.pipe != "" && parts != [] {
      FlushUnread(ToFile(r, parts[0], total), parts[1..], total);
    }
  }

  /** How an event ends: finished if the socket is readable without a byte, which is how the
      close of its peer shows; unexpectedly if a splice fails first; otherwise it waits again. */
  lemma DealEndsIff(r: Receiver, script: seq<Splice>, total: Option<nat>)
    requires r.incoming == "" || total != Some(0)
    ensures var status := Deal(r, script, total).1;
            && (status.Finished? <==> r.incoming == "")
            && (status.UnexpectedTerminate? <==> r.incoming != "" && FailsFirst(|r.incoming|, script))
            && (status.WaitingForReadable? <==> r.incoming != "" && !FailsFirst(|r.incoming|, script))
  {
    if r.incoming != "" {
      var k := DrainEnds(r, script, total);
      if FailsFirst(|r.incoming|, script) {
        var m :| EndsAfter(|r.incoming|, script, m) && m < |script| && script[m].Failed?;
        EndsOnce(|r.incoming|, script, k, m);
      }
    }
  }

  // ---------------------------------------------------------------- runs

  /** A peer's bytes arrive, or the socket becomes readable. */
  datatype Event = Arrive(bytes: string) | Readable(script: seq<Splice>)

  function Start(): Receiver { Receiver("", "", "", 0, []) }

  /** A receiver that is no longer waiting ignores further events. */
  function Run(events: seq<Event>): (Receiver, Status) {
    if events == [] then (Start(), WaitingForReadable)
    else
      var (r, status) := Run(events[..|events| - 1]);
      match events[|events| - 1]
      case Arrive(bytes) => (r.(incoming := r.incoming + bytes), status)
      case Readable(script) => if status.WaitingForReadable? then Deal(r, script, None) else (r, status)
  }

  function Arrived(events: seq<Event>): string {
    if events == [] then ""
    else
      var init := Arrived(events[..|events| - 1]);
      match events[|events| - 1]
      case Arrive(bytes) => init + bytes
      case Readable(_) => init
  }

  /** Over every run the file and the unread bytes are together exactly what arrived; a
      receiver that finishes on its last event has stored all of it. */
  lemma {:induction false} ReceivedIsStored(events: seq<Event>)
    ensures var (r, status) := Run(events);
            && Settled(r)
            && r.file + r.incoming == Arrived(events)
            && (events != [] && status.Finished? && !Run(events[..|events| - 1]).1.Finished?
                ==> r.file == Arrived(events))
  {
    if events != [] {
      var init := events[..|events| - 1];
      ReceivedIsStored(init);
      var (r, status) := Run(init);
      match events[|events| - 1]
      case Arrive(bytes) =>
        assert r.file + (r.incoming + bytes) == r.file + r.incoming + bytes;
      case Readable(script) =>
        if status.WaitingForReadable? {
          if r.incoming != "" {
            DrainKeeps(r, script, None);
            DealEndsIff(r, script, None);
            var q := Drain(r, script, None).0;
            assert Stream(q) == q.file + q.incoming && Stream(r) == r.file + r.incoming;
          } else {
            assert r.file + r.incoming == r.file;
          }
        }
    }
  }

  /** The event at `i` ends the receiver: the peer has closed, or a splice fails. */
  ghost predicate EndsAt(events: seq<Event>, i: int) {
    && 0 <= i < |events| && events[i].Readable? && Run(events[..i]).1.WaitingForReadable?
    && var unread := |Run(events[..i]).0.incoming|;
       unread == 0 || FailsFirst(unread, events[i].script)
  }

  /** ... and it finishes it, for the peer has closed. */
  ghost predicate ClosesAt(events: seq<Event>, i: int) { EndsAt(events, i) && Run(events[..i]).0.incoming == "" }

  /** Over every run: a receiver goes on waiting until its peer has closed or a splice has failed;
      with the first it has finished, with the second it has not. */
  lemma {:induction false} RunEndsIff(events: seq<Event>)
    ensures var status := Run(events).1;
            && (status.WaitingForReadable? <==> forall i :: !EndsAt(events, i))
            && (status.Finished? <==> exists i :: ClosesAt(events, i))
            && !status.DoRead?
  {
    if events != [] {
      var n := |events| - 1;
      var init := events[..n];
      RunEndsIff(init);
      forall i ensures EndsAt(events, i) <==> EndsAt(init, i) || (i == n && EndsAt(events, n)) {
        EndsBefore(events, init, i);
      }
      forall i ensures ClosesAt(events, i) <==> ClosesAt(init, i) || (i == n && ClosesAt(events, n)) {
        EndsBefore(events, init, i);
      }
      LastEvent(events, init, n);
    }
  }

  lemma EndsBefore(events: seq<Event>, init: seq<Event>, i: int)
    requires events != [] && init == events[..|events| - 1]
    ensures i < |init| ==> (EndsAt(events, i) <==> EndsAt(init, i)) && (ClosesAt(events, i) <==> ClosesAt(init, i))
  {
    assert 0 <= i < |init| ==> events[..i] == init[..i];
  }

  lemma LastEvent(events: seq<Event>, init: seq<Event>, n: nat)
    requires |events| == n + 1 && init == events[..n]
    ensures EndsAt(events, n) ==> Run(init).1.WaitingForReadable?
    ensures Run(events).1 == if ClosesAt(events, n) then Finished
                             else if EndsAt(events, n) then UnexpectedTerminate else Run(init).1
  {
    if events[n].Readable? && Run(init).1.WaitingForReadable? {
      DealEndsIff(Run(init).0, events[n].script, None);
    }
  }

  /** Without a failed splice no receiver ends before its peer has closed. */
  lemma EndsWhenPeerCloses(events: seq<Event>)
    requires forall e, call :: e in events && e.Readable? && call in e.script ==> !call.Failed?
    ensures var status := Run(events).1;
            status.WaitingForReadable?
            || (status.Finished? && exists i :: ClosesAt(events, i))
  {
    RunEndsIff(events);
    if !Run(events).1.WaitingForReadable? {
      var i :| EndsAt(events, i);
      assert events[i] in events;
      assert ClosesAt(events, i);
    }
  }

  // ---------------------------------------------------------------- the receiving object

  /** RecvFileImpl, and RecvFileOp when there is no hook. */
  class FileReceiver {
    const hook: Option<nat>
    var socket: string
    var pipe: string
    var file: string
    var offset: nat
    var progress: seq<int>
    var status: Status
    var waits: nat
    var completed: Option<bool>

    ghost function View(): Receiver
      reads this
    {
      Receiver(socket, pipe, file, offset, progress)
    }

    constructor (hook: Option<nat>)
      ensures View() == Start() && this.hook == hook
      ensures status == WaitingForReadable && waits == 0 && completed == None
    {
      this.hook := hook;
      socket, pipe, file, offset, progress := "", "", "", 0, [];
      status, waits, completed := WaitingForReadable, 0, None;
    }

    // deal_event
    method DealEvent(script: seq<Splice>) returns (result: Status)
      requires socket == "" || hook != Some(0)
      modifies this`socket, this`pipe, this`file, this`offset, this`progress
      ensures (View(), result) == Deal(old(View()), script, hook)
      ensures result.Finished? <==> old(socket) == ""
      ensures result.UnexpectedTerminate? <==> old(socket) != "" && FailsFirst(old(|socket|), script)
    {
      DealEndsIff(View(), script, hook);
      if |socket| == 0 {
        return Finished;
      }
      var calls := script;
      while calls != []
        invariant Drain(View(), calls, hook) == Drain(old(View()), script, hook)
        decreases |calls|
      {
        var call := calls[0];
        match call {
          case Interrupted =>
            calls := calls[1..];
          case WouldBlock =>
            break;
          case Failed =>
            return UnexpectedTerminate;
          case Moved(n, parts) =>
            if |socket| == 0 {
              break;
            }
            var spliceRet := Count(n, if |socket| < LEN then |socket| else LEN);
            pipe := pipe + socket[..spliceRet];
            socket := socket[spliceRet..];
            calls := calls[1..];
            FlushPipe(parts);
        }
      }
      result := WaitingForReadable;
    }

    // the inner loop of deal_event
    method FlushPipe(parts: seq<nat>)
      requires hook != Some(0)
      modifies this`pipe, this`file, this`offset, this`progress
      ensures View() == Flush(old(View()), parts, hook)
    {
      var counts := parts;
      while |pipe| > 0
        invariant socket == old(socket)
        invariant Flush(View(), counts, hook) == Flush(old(View()), parts, hook)
        decreases |pipe|
      {
        var n := if counts == [] then |pipe| else counts[0];
        SplicePipe(n);
        counts := if counts == [] then [] else counts[1..];
      }
    }

    // one splice from the pipe to the file, and the hook
    method SplicePipe(n: nat)
      requires pipe != "" && hook != Some(0)
      modifies this`pipe, this`file, this`offset, this`progress
      ensures View() == ToFile(old(View()), n, hook)
    {
      var pipeRet := Count(n, |pipe|);
      file := file + pipe[..pipeRet];
      pipe := pipe[pipeRet..];
      offset := offset + pipeRet;
      if hook.Some? {
        progress := progress + [Percent(offset, hook.value)];
      }
    }

    /** The call operator: deals with one readable event and ends with a new wait or with a completion. */
    method Resume(ec: bool, script: seq<Splice>)
      requires status == DoRead || status == WaitingForReadable
      requires completed == None
      requires socket == "" || hook != Some(0)
      modifies this
      ensures ec ==> completed == Some(false) && waits == old(waits) && View() == old(View())
      ensures !ec && old(status) == WaitingForReadable ==>
                status == DoRead && waits == old(waits) + 1 && completed == None && View() == old(View())
      ensures !ec && old(status) == DoRead ==>
                var (r, result) := Deal(old(View()), script, hook);
                && View() == r
                && completed == (if result == Finished then Some(true)
                                 else if result == UnexpectedTerminate then Some(false) else None)
                && waits == old(waits) + (if completed == None then 1 else 0)
                && (completed == None ==> status == DoRead)
    {
      if ec {
        completed := Some(false);
        return;
      }
      DealAnswers(View(), script, hook);
      while true
        invariant completed == None && waits == old(waits)
        invariant (View(), status) == (old(View()), old(status))
               || (old(status) == DoRead && (View(), status) == Deal(old(View()), script, hook))
        decreases status == DoRead
      {
        match status {
          case WaitingForReadable =>
            status := DoRead;
            waits := waits + 1;
            return;
          case DoRead =>
            status := DealEvent(script);
          case Finished =>
            completed := Some(true);
            return;
          case UnexpectedTerminate =>
            completed := Some(false);
            return;
        }
      }
    }
  }

  lemma DealAnswers(r: Receiver, script: seq<Splice>, total: Option<nat>)
    requires r.incoming == "" || total != Some(0)
    ensures Deal(r, script, total).1 != DoRead
    ensures Deal(r, script, total).1 == Finished <==> r.incoming == ""
  {
    DealEndsIff(r, script, total);
  }
}
