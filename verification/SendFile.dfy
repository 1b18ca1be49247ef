/** The sending engine behind RETR: offset arithmetic over sendfile, and the rate limiter. */
module SendFile {
  import opened Division

  // times are nanoseconds, the tick of std::chrono::high_resolution_clock
  const SECOND := 1_000_000_000
  const MILLISECOND := 1_000_000
  const TIME_SPLICE := 10
  // the limiter's delay, milliseconds(1000 / time_splice)
  const GAP := 1000 / TIME_SPLICE * MILLISECOND
  const SIZE_T := 0x1_0000_0000_0000_0000

  /** One positive return of sendfile. */
  datatype Send = Send(time: int, count: nat)

  /** State of one SendFileOp. `sent` is what has gone into the data socket and `sends`
      when; the source keeps neither, nothing in a step depends on them. */
  datatype Transfer = Transfer(file: string, offset: nat, sent: string, sends: seq<Send>)

  /** What sendfile reports: at most `n` bytes moved, or an error. */
  datatype Ret = Sent(n: nat) | WouldBlock | Failed

  datatype Next = AwaitWritable | AwaitTimer(expiry: int) | Completed | Dropped

  function Open(file: string): Transfer { Transfer(file, 0, "", []) }

  // get_download_speed_limit_in_kb_per_s() * 1024 / time_splice
  function Slice(limit: nat): nat { limit * 1024 / TIME_SPLICE }

  function Min(a: nat, b: nat): nat { if a <= b then a else b }

  // file_size_ - file_offset_ in size_t arithmetic
  function Left(t: Transfer): nat { (|t.file| - t.offset) % SIZE_T }

  function Requested(t: Transfer, slice: nat): nat {
    if slice == 0 then Left(t) else Min(Left(t), slice)
  }

  /** The bytes one sendfile call moves: in order, no more than requested, none past the end of the file. */
  function Moved(t: Transfer, slice: nat, n: nat): string {
    if t.offset <= |t.file| then
      t.file[t.offset..t.offset + Min(Min(n, Requested(t, slice)), |t.file| - t.offset)]
    else ""
  }

  function Advance(t: Transfer, now: int, bytes: string): Transfer {
    Transfer(t.file, t.offset + |bytes|, t.sent + bytes,
             if bytes == "" then t.sends else t.sends + [Send(now, |bytes|)])
  }

  // SendFileOp::deal_event; `ec` is the error of the wait that led here
  function Deal(t: Transfer, slice: nat, ec: bool, ret: Ret, now: int): (Transfer, Next) {
    if ec || ret.Failed? then (t, Dropped)
    else if ret.WouldBlock? then (t, AwaitWritable)
    else
      var u := Advance(t, now, Moved(t, slice, ret.n));
      (u, if Left(u) > 0 then (if slice == 0 then AwaitWritable else AwaitTimer(now + GAP)) else Completed)
  }

  // ---------------------------------------------------------------- invariant

  ghost predicate Spaced(sends: seq<Send>) {
    forall i, j :: 0 <= i < j < |sends| ==> sends[i].time + GAP <= sends[j].time
  }

  /** Exactly the first `offset` bytes of the file have been sent; under a limit, in
      pieces of at most one slice that are at least one gap apart. */
  ghost predicate Valid(t: Transfer, limit: nat) {
    && |t.file| < SIZE_T
    && t.offset <= |t.file|
    && t.sent == t.file[..t.offset]
    && (limit > 0 ==> Spaced(t.sends) && forall s :: s in t.sends ==> s.count <= Slice(limit))
  }

  /** At time `now` the limiter no longer holds the transfer back. */
  ghost predicate Ready(t: Transfer, limit: nat, now: int) {
    limit > 0 && t.sends != [] ==> t.sends[|t.sends| - 1].time + GAP <= now
  }

  /** The remaining size never wraps. */
  lemma LeftIsExact(t: Transfer, limit: nat)
    requires Valid(t, limit)
    ensures Left(t) == |t.file| - t.offset
  {
  }

  /** What one event keeps, and what it promises for the event after it. */
  lemma DealKeeps(t: Transfer, limit: nat, ec: bool, ret: Ret, now: int)
    requires Valid(t, limit) && Ready(t, limit, now)
    ensures var (u, next) := Deal(t, Slice(limit), ec, ret, now);
            && Valid(u, limit)
            && u.file == t.file
            && t.sent <= u.sent
            && (next.AwaitWritable? ==> Ready(u, limit, now))
            && (next.AwaitTimer? ==> limit > 0 && next.expiry == now + GAP && Ready(u, limit, next.expiry))
            && (next.Completed? ==> u.offset == |u.file| && u.sent == u.file)
            && (next.AwaitWritable? || next.AwaitTimer? ==> u == t || u.offset < |u.file|)
  {
    var slice := Slice(limit);
    if !ec && ret.Sent? {
      var bytes := Moved(t, slice, ret.n);
      var u := Advance(t, now, bytes);
      assert u.sent == t.file[..u.offset];
      LeftIsExact(t, limit);
      assert Left(u) == |u.file| - u.offset;
      forall i, j | limit > 0 && 0 <= i < j < |u.sends| ensures u.sends[i].time + GAP <= u.sends[j].time {
        if j == |t.sends| {
          assert i < |t.sends| - 1 ==> t.sends[i].time + GAP <= t.sends[|t.sends| - 1].time;
        }
      }
    }
  }

  /** Progress: an event that neither fails nor blocks, and whose sendfile moves something,
      leaves strictly less to send; and an event completes the transfer only by reaching the end. */
  lemma DealProgress(t: Transfer, limit: nat, n: nat, now: int)
    requires Valid(t, limit) && n > 0
    ensures var (u, next) := Deal(t, Slice(limit), false, Sent(n), now);
            && (t.offset < |t.file| ==> |u.file| - u.offset < |t.file| - t.offset)
            && (next.Completed? <==> u.offset == |u.file|)
  {
    LeftIsExact(t, limit);
    var u := Deal(t, Slice(limit), false, Sent(n), now).0;
    assert Left(u) == |u.file| - u.offset;
  }

  // ---------------------------------------------------------------- rate

  /** Bytes sent at times in the half-open interval [from, to). */
  function SentWithin(sends: seq<Send>, from: int, to: int): nat {
    if sends == [] then 0
    else
      var last := sends[|sends| - 1];
      SentWithin(sends[..|sends| - 1], from, to) + (if from <= last.time < to then last.count else 0)
  }

  function CountWithin(sends: seq<Send>, from: int, to: int): nat {
    if sends == [] then 0
    else
      var last := sends[|sends| - 1];
      CountWithin(sends[..|sends| - 1], from, to) + (if from <= last.time < to then 1 else 0)
  }

  // how many gaps fit into an interval of this length, rounded up
  function Gaps(length: int): nat {
    if length <= 0 then 0 else (length + GAP - 1) / GAP
  }

  lemma GapsStep(short: int, long: int)
    requires short + GAP <= long && 0 < long
    ensures Gaps(short) + 1 <= Gaps(long)
  {
    if short <= 0 {
      QuotientAbove(long + GAP - 1, 1, GAP);
    } else {
      OneMore(short + GAP - 1, long + GAP - 1, GAP);
    }
  }

  lemma OneMore(a: nat, b: nat, d: nat)
    requires d > 0 && a + d <= b
    ensures a / d + 1 <= b / d
  {
    assert d * (a / d + 1) == d * (a / d) + d;
    QuotientAbove(b, a / d + 1, d);
  }

  lemma {:induction false} CountShrinks(sends: seq<Send>, from: int, to: int, upTo: int)
    requires upTo <= to
    requires forall s :: s in sends ==> s.time < upTo
    ensures CountWithin(sends, from, to) == CountWithin(sends, from, upTo)
  {
    if sends != [] {
      assert sends[|sends| - 1] in sends;
      CountShrinks(sends[..|sends| - 1], from, to, upTo);
    }
  }

  lemma {:induction false} CountBound(sends: seq<Send>, from: int, to: int)
    requires Spaced(sends)
    ensures CountWithin(sends, from, to) <= Gaps(to - from)
  {
    if sends != [] {
      var init, last := sends[..|sends| - 1], sends[|sends| - 1];
      if from <= last.time < to {
        var upTo := last.time - GAP + 1;
        forall s | s in init ensures s.time < upTo {
          var i :| 0 <= i < |init| && init[i] == s;
          assert sends[i].time + GAP <= sends[|sends| - 1].time;
        }
        CountShrinks(init, from, to, upTo);
        CountBound(init, from, upTo);
        GapsStep(upTo - from, to - from);
      } else {
        CountBound(init, from, to);
      }
    }
  }

  lemma {:induction false} SumBound(sends: seq<Send>, from: int, to: int, slice: nat)
    requires forall s :: s in sends ==> s.count <= slice
    ensures SentWithin(sends, from, to) <= slice * CountWithin(sends, from, to)
  {
    if sends != [] {
      var init, last := sends[..|sends| - 1], sends[|sends| - 1];
      SumBound(init, from, to, slice);
      assert last in sends;
      var c := CountWithin(init, from, to);
      assert slice * (c + 1) == slice * c + slice;
    }
  }

  /** The rate limit: in no one-second window does a transfer send more than limit KiB. */
  lemma RateBound(t: Transfer, limit: nat, from: int)
    requires Valid(t, limit) && limit > 0
    ensures SentWithin(t.sends, from, from + SECOND) <= 1024 * limit - 1024 * limit % TIME_SPLICE
  {
    CountBound(t.sends, from, from + SECOND);
    SumBound(t.sends, from, from + SECOND, Slice(limit));
    Times(Slice(limit), CountWithin(t.sends, from, from + SECOND), 10);
    TenSlices(limit);
  }

  lemma TenSlices(limit: nat)
    ensures Slice(limit) * 10 == 1024 * limit - 1024 * limit % TIME_SPLICE
  {
    assert limit * 1024 == 1024 * limit;
  }

  // ---------------------------------------------------------------- how an event ends

  lemma SliceIsPositive(limit: nat)
    ensures Slice(limit) == 1024 * limit / 10
    ensures Slice(limit) > 0 <==> limit > 0
  {
    assert 1024 * limit == limit * 1024;
  }

  /** What an event answers: an operation is given up only for an error, completes exactly with
      its last byte, and under a limit is due again a tenth of a second after each slice. */
  lemma DealEndsIff(t: Transfer, limit: nat, ec: bool, ret: Ret, now: int)
    requires Valid(t, limit)
    ensures var (u, next) := Deal(t, Slice(limit), ec, ret, now);
            && (next.Dropped? <==> ec || ret.Failed?)
            && (next.Completed? <==> !ec && ret.Sent? && u.offset == |u.file|)
            && (next.AwaitTimer? <==> !ec && ret.Sent? && limit > 0 && u.offset < |u.file|)
            && (next.AwaitTimer? ==> next.expiry == now + SECOND / 10)
            && u.file == t.file && t.offset <= u.offset <= |u.file|
            && (u.offset != t.offset ==> !ec && ret.Sent?)
  {
    SliceIsPositive(limit);
    LeftIsExact(t, limit);
    var u := Deal(t, Slice(limit), ec, ret, now).0;
    if !ec && ret.Sent? {
      assert Left(u) == |u.file| - u.offset;
    }
  }

  /** The most one event may send: under a limit of L KiB a tenth of it. */
  function Portion(limit: nat, left: nat): nat {
    if limit > 0 then Min(left, 1024 * limit / 10) else left
  }

  /** An event sends exactly that if the socket takes it, and otherwise what the socket takes. */
  lemma DealSends(t: Transfer, limit: nat, n: nat, now: int)
    requires Valid(t, limit)
    ensures var u := Deal(t, Slice(limit), false, Sent(n), now).0;
            u.offset == t.offset + Min(n, Portion(limit, |t.file| - t.offset))
  {
    SliceIsPositive(limit);
    LeftIsExact(t, limit);
  }

  // ---------------------------------------------------------------- the rate from below

  /** The states of a transfer, from `ts[0]` on, with an event at each of these times and a
      socket that takes whatever it is given. */
  ghost predicate Served(ts: seq<Transfer>, limit: nat, times: seq<int>) {
    |ts| == |times| + 1 && forall i :: 0 <= i < |times| ==> TurnAt(ts, limit, times, i)
  }

  ghost predicate TurnAt(ts: seq<Transfer>, limit: nat, times: seq<int>, i: nat)
    requires |ts| == |times| + 1 && i < |times|
  {
    ts[i + 1] == Turn(ts[i], limit, times[i]).0
  }

  function Turn(t: Transfer, limit: nat, now: int): (Transfer, Next) {
    Deal(t, Slice(limit), false, Sent(|t.file|), now)
  }

  /** The first event comes within `late` of the start, every other one within `late` of being due. */
  ghost predicate Prompt(times: seq<int>, start: int, late: nat) {
    && (times != [] ==> start <= times[0] <= start + late)
    && forall i :: 0 <= i < |times| - 1 ==> DueAt(times, late, i)
  }

  ghost predicate DueAt(times: seq<int>, late: nat, i: nat)
    requires i < |times| - 1
  {
    times[i] + SECOND / 10 <= times[i + 1] <= times[i] + SECOND / 10 + late
  }

  // `each`, added up k times
  function Sum(k: nat, each: nat): nat { if k == 0 then 0 else Sum(k - 1, each) + each }

  lemma {:induction false} SumIsProduct(k: nat, each: nat)
    ensures Sum(k, each) == k * each
  {
    if k > 0 {
      SumIsProduct(k - 1, each);
      assert k * each == (k - 1) * each + each;
    }
  }

  lemma {:induction false} SentGrows(sends: seq<Send>, from: int, to: int, later: int)
    requires to <= later
    ensures SentWithin(sends, from, to) <= SentWithin(sends, from, later)
  {
    if sends != [] {
      SentGrows(sends[..|sends| - 1], from, to, later);
    }
  }

  lemma {:induction false} TurnsInTime(times: seq<int>, start: int, late: nat, k: nat)
    requires Prompt(times, start, late) && k < |times|
    ensures start <= times[k] <= start + Sum(k, SECOND / 10 + late) + late
  {
    if k > 0 {
      TurnsInTime(times, start, late, k - 1);
      assert DueAt(times, late, k - 1);
    }
  }

  /** From its state `t` the transfer has come to `u`, with `earned` bytes or all that was left
      sent between `start` and `until`. */
  ghost predicate KeepsUp(t: Transfer, u: Transfer, start: int, until: int, earned: nat) {
    && u.file == t.file && t.offset <= |t.file|
    && u.offset == t.offset + Min(|t.file| - t.offset, earned)
    && SentWithin(u.sends, start, until) >= u.offset - t.offset
  }

  /** The rate from below: served promptly, a download under a limit of L KiB sends in every k
      tenths of a second k times 1024 L / 10 bytes, or all that is left; between two events it
      waits for its timer. */
  lemma RateLowerBound(ts: seq<Transfer>, limit: nat, times: seq<int>, start: int, late: nat, k: nat)
    requires Served(ts, limit, times) && Prompt(times, start, late) && k <= |times|
    requires limit > 0 && Valid(ts[0], limit) && Ready(ts[0], limit, start)
    ensures KeepsUp(ts[0], ts[k], start, start + k * (SECOND / 10 + late), k * (1024 * limit / 10))
    ensures k > 0 ==> AnswersDue(ts[k - 1], ts[k], limit, times[k - 1])
  {
    InProducts(ts, limit, times, start, late, SECOND / 10 + late, 1024 * limit / 10, k);
    if k > 0 {
      AnswerAt(ts, limit, times, start, late, k - 1);
    }
  }

  /** The event that led from `u` to `v` asked for another one a tenth of a second later, or completed. */
  ghost predicate AnswersDue(u: Transfer, v: Transfer, limit: nat, now: int) {
    Turn(u, limit, now) == (v, if v.offset < |v.file| then AwaitTimer(now + SECOND / 10) else Completed)
  }

  lemma InProducts(ts: seq<Transfer>, limit: nat, times: seq<int>, start: int, late: nat, step: nat, portion: nat,
                   k: nat)
    requires Served(ts, limit, times) && Prompt(times, start, late) && k <= |times|
    requires limit > 0 && Valid(ts[0], limit) && Ready(ts[0], limit, start)
    requires step == SECOND / 10 + late && portion == 1024 * limit / 10
    ensures KeepsUp(ts[0], ts[k], start, start + k * step, k * portion)
  {
    TurnsKeepUp(ts, limit, times, start, late, step, portion, k);
    SumIsProduct(k, step);
    SumIsProduct(k, portion);
  }

  lemma AnswerAt(ts: seq<Transfer>, limit: nat, times: seq<int>, start: int, late: nat, k: nat)
    requires Served(ts, limit, times) && Prompt(times, start, late) && k < |times|
    requires limit > 0 && Valid(ts[0], limit) && Ready(ts[0], limit, start)
    ensures AnswersDue(ts[k], ts[k + 1], limit, times[k])
  {
    TurnsKeepUp(ts, limit, times, start, late, SECOND / 10 + late, 1024 * limit / 10, k);
    assert TurnAt(ts, limit, times, k);
    TurnEnds(ts[k], ts[k + 1], limit, times[k]);
  }

  lemma TurnEnds(u: Transfer, v: Transfer, limit: nat, now: int)
    requires limit > 0 && Valid(u, limit) && v == Turn(u, limit, now).0
    ensures Turn(u, limit, now).1 == if v.offset < |v.file| then AwaitTimer(now + SECOND / 10) else Completed
  {
    DealEndsIff(u, limit, false, Sent(|u.file|), now);
  }

  /** ... and from `due` on it may send again. */
  ghost predicate OnTime(t: Transfer, u: Transfer, limit: nat, start: int, until: int, earned: nat, due: int) {
    Valid(u, limit) && Ready(u, limit, due) && KeepsUp(t, u, start, until, earned)
  }

  lemma {:induction false} TurnsKeepUp(ts: seq<Transfer>, limit: nat, times: seq<int>, start: int, late: nat,
                                       step: nat, portion: nat, k: nat)
    requires Served(ts, limit, times) && Prompt(times, start, late) && k <= |times|
    requires limit > 0 && Valid(ts[0], limit) && Ready(ts[0], limit, start)
    requires step == SECOND / 10 + late && portion == 1024 * limit / 10
    ensures OnTime(ts[0], ts[k], limit, start, start + Sum(k, step), Sum(k, portion),
                   if k == 0 then start else times[k - 1] + GAP)
    decreases k
  {
    if k > 0 {
      TurnsKeepUp(ts, limit, times, start, late, step, portion, k - 1);
      TurnsInTime(times, start, late, k - 1);
      assert k > 1 ==> DueAt(times, late, k - 2);
      assert TurnAt(ts, limit, times, k - 1);
      OneTurn(ts[0], ts[k - 1], ts[k], limit, if k == 1 then start else times[k - 2] + GAP, times[k - 1],
              Sum(k - 1, portion), portion, start, start + Sum(k - 1, step), start + Sum(k - 1, step) + step);
    }
  }

  // one event more; `t` is the transfer at the start
  lemma OneTurn(t: Transfer, u: Transfer, v: Transfer, limit: nat, due: int, now: int, earned: nat, portion: nat,
                start: int, until: int, later: int)
    requires limit > 0 && portion == 1024 * limit / 10 && v == Turn(u, limit, now).0
    requires OnTime(t, u, limit, start, until, earned, due)
    requires due <= now && until <= later && start <= now < later
    ensures OnTime(t, v, limit, start, later, earned + portion, now + GAP)
  {
    var n := |u.file|;
    DealKeeps(u, limit, false, Sent(n), now);
    DealEndsIff(u, limit, false, Sent(n), now);
    DealSends(u, limit, n, now);
    DealReady(u, limit, n, now);
    SentGrows(u.sends, start, until, later);
    DealLogs(u, Slice(limit), n, now, start, later);
    MorePortion(t, u, v, start, until, later, earned, portion);
  }

  lemma MorePortion(t: Transfer, u: Transfer, v: Transfer, start: int, until: int, later: int, earned: nat,
                    portion: nat)
    requires KeepsUp(t, u, start, until, earned) && v.file == u.file
    requires v.offset == u.offset + Min(|u.file|, Min(|u.file| - u.offset, portion))
    requires SentWithin(u.sends, start, until) <= SentWithin(u.sends, start, later)
    requires SentWithin(v.sends, start, later) == SentWithin(u.sends, start, later) + (v.offset - u.offset)
    ensures KeepsUp(t, v, start, later, earned + portion)
  {
  }

  lemma DealLogs(u: Transfer, slice: nat, n: nat, now: int, from: int, to: int)
    requires u.offset <= |u.file| && from <= now < to
    ensures var v := Deal(u, slice, false, Sent(n), now).0;
            SentWithin(v.sends, from, to) == SentWithin(u.sends, from, to) + (v.offset - u.offset)
  {
    var v := Deal(u, slice, false, Sent(n), now).0;
    if v.sends != u.sends {
      assert v.sends[..|v.sends| - 1] == u.sends;
    }
  }

  lemma DealReady(u: Transfer, limit: nat, n: nat, now: int)
    requires Ready(u, limit, now)
    ensures Ready(Deal(u, Slice(limit), false, Sent(n), now).0, limit, now + GAP)
  {
  }

  // ---------------------------------------------------------------- the operation object

  /** SendFileOp: the fields its handlers update, and the continuations it can have outstanding. */
  class SendFileOp {
    const file: string
    const fileSize: nat
    var fileOffset: nat
    var writableWaits: nat
    var limiterWaits: nat
    var limiterExpiry: int
    var completions: nat
    ghost var sent: string
    ghost var sends: seq<Send>

    ghost function View(): Transfer
      reads this
    {
      Transfer(file, fileOffset, sent, sends)
    }

    constructor (content: string)
      ensures View() == Open(content)
      ensures fileSize == |file|
      ensures writableWaits == 0 && limiterWaits == 0 && completions == 0
    {
      file, fileSize, fileOffset := content, |content|, 0;
      writableWaits, limiterWaits, limiterExpiry, completions := 0, 0, 0, 0;
      sent, sends := "", [];
    }

    // do_send_file
    method DoSendFile()
      modifies this`writableWaits
      ensures writableWaits == old(writableWaits) + 1
    {
      writableWaits := writableWaits + 1;
    }

    // sendfile with a positive or zero return
    method CallSendfile(n: nat, count: nat, now: int)
      requires fileSize == |file|
      modifies this`fileOffset, this`sent, this`sends
      ensures var t := old(View());
              var moved := if t.offset <= |file|
                then file[t.offset..t.offset + Min(Min(n, count), |file| - t.offset)] else "";
              View() == Advance(t, now, moved)
    {
      var moved := if fileOffset <= fileSize then Min(Min(n, count), fileSize - fileOffset) else 0;
      ghost var bytes := if fileOffset <= fileSize then file[fileOffset..fileOffset + moved] else "";
      fileOffset := fileOffset + moved;
      sent := sent + bytes;
      sends := if bytes == "" then sends else sends + [Send(now, moved)];
    }

    // deal_event, entered from a wait that is over: no continuation is outstanding
    method DealEvent(ec: bool, sliceSize: nat, ret: Ret, now: int) returns (ghost next: Next)
      requires fileSize == |file| && writableWaits == 0 && limiterWaits == 0
      modifies this
      ensures (View(), next) == Deal(old(View()), sliceSize, ec, ret, now)
      ensures writableWaits == (if next.AwaitWritable? then 1 else 0)
      ensures limiterWaits == (if next.AwaitTimer? then 1 else 0)
      ensures next.Dropped? <==> ec || ret.Failed?
      ensures next.AwaitTimer? ==> limiterExpiry == next.expiry == now + SECOND / 10
      ensures completions == old(completions) + (if next.Completed? then 1 else 0)
    {
      if ec {
        return Dropped;
      }
      var left := (fileSize - fileOffset) % SIZE_T;
      var count := if sliceSize == 0 then left else Min(left, sliceSize);
      match ret {
        case Failed =>
          return Dropped;
        case WouldBlock =>
          DoSendFile();
          return AwaitWritable;
        case Sent(n) =>
          CallSendfile(n, count, now);
          left := (fileSize - fileOffset) % SIZE_T;
          if left > 0 {
            if sliceSize == 0 {
              DoSendFile();
              return AwaitWritable;
            } else {
              limiterExpiry := now + GAP;
              limiterWaits := limiterWaits + 1;
              return AwaitTimer(now + GAP);
            }
          } else {
            completions := completions + 1;
            return Completed;
          }
      }
    }
  }
}
