/**
 * RepeatInputStream: an InputStream that plays a fixed byte array over and
 * over. Its state is a ByteBuffer position into the array (the limit is always
 * the array's length) and a Java `long` counter of rewinds still allowed.
 *
 * The pure part describes a stream state by the bytes it will still deliver:
 * `Available` of them, the k-th being `Upcoming(k)`; `Consume` is the state
 * after n of them are delivered. The class RepeatInputStream holds the same
 * state in fields, and its methods are proved to move it as these functions
 * say.
 */
module RepeatStream {
  import opened IonValues

  /** Java `int`. */
  type int32 = x: int | -0x8000_0000 <= x < 0x8000_0000

  /** Java `long`. */
  type int64 = x: int | -0x8000_0000_0000_0000 <= x < 0x8000_0000_0000_0000

  const INT_MAX := 0x7fff_ffff
  const LONG_MIN := -0x8000_0000_0000_0000
  const LONG_MAX := 0x7fff_ffff_ffff_ffff

  function Min(a: int, b: int): (m: int)
    ensures m <= a && m <= b && (m == a || m == b)
  {
    if a < b then a else b
  }

  /** The Java `int` that an `int` expression evaluates to: the value modulo 2^32, read as signed. */
  function Wrap32(x: int): (r: int32)
    ensures (r - x) % 0x1_0000_0000 == 0
    ensures -0x8000_0000 <= x <= INT_MAX ==> r == x
  {
    var m := x % 0x1_0000_0000;
    if m >= 0x8000_0000 then m - 0x1_0000_0000 else m
  }

  /** `x--` on a Java `long`: LONG_MIN wraps around to LONG_MAX. */
  function LongDecrement(x: int64): (r: int64)
    ensures x != LONG_MIN ==> r == x - 1
    ensures x == LONG_MIN ==> r == LONG_MAX
    ensures x != 0 ==> Copies(r) == Copies(x) - 1
  {
    if x == LONG_MIN then LONG_MAX else x - 1
  }

  /**
   * How many more times a counter can be decremented before it reads 0: the
   * counter read as an unsigned 64-bit number. A negative count is not an
   * error in the source; it only goes round the whole range of `long`.
   */
  function Copies(r: int64): (c: nat)
    ensures c == 0 <==> r == 0
    ensures r >= 0 ==> c == r
    ensures r < 0 ==> c == r + 0x1_0000_0000_0000_0000
  {
    if r >= 0 then r else r + 0x1_0000_0000_0000_0000
  }

  /** `b & 0xFF`: a Java byte as an unsigned octet. */
  function Octet(b: int8): (o: int)
    ensures 0 <= o <= 255
    ensures b >= 0 ==> o == b as int
    ensures b < 0 ==> o == b as int + 256
  {
    (b as int) % 256
  }

  /** The mutable state: the buffer's position and the rewind counter. */
  datatype StreamState = StreamState(pos: nat, remainder: int64)

  /** The state of a new stream over `times`. */
  function Initial(times: int64): (s: StreamState)
    ensures s.pos == 0 && s.remainder == times
  {
    StreamState(0, times)
  }

  /**
   * The position is within the buffer, and with a non-empty buffer a state
   * whose buffer is used up has no rewind left (checkBuf rewinds otherwise).
   */
  ghost predicate WellFormed(bytes: seq<int8>, s: StreamState) {
    s.pos <= |bytes| && (|bytes| > 0 && s.pos == |bytes| ==> s.remainder == 0)
  }

  /** isDone: no rewind left and nothing remaining in the buffer. */
  predicate IsDoneState(bytes: seq<int8>, s: StreamState) {
    s.remainder == 0 && s.pos >= |bytes|
  }

  /** checkBuf: a used-up buffer of a stream that is not done is rewound, at the cost of one rewind. */
  function CheckBufState(bytes: seq<int8>, s: StreamState): (t: StreamState)
    requires s.pos <= |bytes|
    ensures t.pos <= |bytes|
    ensures s.pos < |bytes| || IsDoneState(bytes, s) ==> t == s
    ensures s.pos == |bytes| && !IsDoneState(bytes, s) ==>
              t.pos == 0 && t.remainder != s.remainder && Copies(t.remainder) == Copies(s.remainder) - 1
  {
    if !IsDoneState(bytes, s) && s.pos == |bytes| then StreamState(0, LongDecrement(s.remainder)) else s
  }

  /** The number of bytes still to come from a state over a non-empty buffer. */
  function Available(bytes: seq<int8>, s: StreamState): nat
    requires s.pos <= |bytes|
  {
    (|bytes| - s.pos) + Copies(s.remainder) * |bytes|
  }

  /** The k-th byte still to come (counting from 0). */
  function Upcoming(bytes: seq<int8>, s: StreamState, k: nat): int8
    requires |bytes| > 0
  {
    bytes[(s.pos + k) % |bytes|]
  }

  lemma MulPred(c: int, l: int)
    ensures c * l == (c - 1) * l + l
  {
  }

  lemma {:induction false} MulAtLeast(d: int, l: int)
    requires d >= 1 && l > 0
    ensures d * l >= l
    decreases d
  {
    if d > 1 {
      MulPred(d, l);
      MulAtLeast(d - 1, l);
    }
  }

  lemma ModUnique(x: int, l: int, q: int, r: int)
    requires l > 0 && 0 <= r < l && x == q * l + r
    ensures x % l == r
  {
    var d := x / l - q;
    assert x == (x / l) * l + x % l;
    assert d * l == (x / l) * l - q * l;
    assert d * l == r - x % l;
    if d >= 1 {
      MulAtLeast(d, l);
    } else if d <= -1 {
      MulAtLeast(-d, l);
    }
  }

  /** Adding one whole buffer length does not change the index within the buffer. */
  lemma ModAddDivisor(l: int, k: nat)
    requires l > 0
    ensures (l + k) % l == k % l
  {
    var q := k / l;
    assert k == q * l + k % l;
    MulPred(q + 1, l);
    ModUnique(l + k, l, q + 1, k % l);
  }

  lemma ProductZero(c: nat, l: nat)
    requires l > 0
    ensures c * l == 0 <==> c == 0
  {
    if c > 0 {
      MulAtLeast(c, l);
    }
  }

  /** Over a non-empty buffer, a well-formed state is done exactly when nothing is left to come. */
  lemma DoneIffNothingAvailable(bytes: seq<int8>, s: StreamState)
    requires |bytes| > 0 && WellFormed(bytes, s)
    ensures IsDoneState(bytes, s) <==> Available(bytes, s) == 0
  {
    ProductZero(Copies(s.remainder), |bytes|);
  }

  /** At least the rest of the current buffer is still to come. */
  lemma AvailableCoversBuffer(bytes: seq<int8>, s: StreamState)
    requires s.pos <= |bytes|
    ensures Available(bytes, s) >= |bytes| - s.pos
  {
    if Copies(s.remainder) > 0 && |bytes| > 0 {
      MulAtLeast(Copies(s.remainder), |bytes|);
    }
  }

  /** Taking the byte at the position: the position moves on, then checkBuf. */
  function Step(bytes: seq<int8>, s: StreamState): (t: StreamState)
    requires WellFormed(bytes, s) && s.pos < |bytes|
    ensures WellFormed(bytes, t)
  {
    CheckBufState(bytes, StreamState(s.pos + 1, s.remainder))
  }

  /** One byte taken: one fewer to come, and the rest in the same order. */
  lemma StepAdvances(bytes: seq<int8>, s: StreamState)
    requires WellFormed(bytes, s) && s.pos < |bytes|
    ensures Available(bytes, Step(bytes, s)) == Available(bytes, s) - 1
    ensures forall k: nat :: Upcoming(bytes, Step(bytes, s), k) == Upcoming(bytes, s, k + 1)
  {
    var t := Step(bytes, s);
    var l := |bytes|;
    if s.pos + 1 == l && s.remainder != 0 {
      var c := Copies(s.remainder);
      MulPred(c, l);
      assert Available(bytes, t) == l + (c - 1) * l;
      forall k: nat ensures Upcoming(bytes, t, k) == Upcoming(bytes, s, k + 1) {
        assert s.pos + (k + 1) == l + k;
        ModAddDivisor(l, k);
      }
    }
  }

  /** The state after `n` more bytes have been delivered. */
  function Consume(bytes: seq<int8>, s: StreamState, n: nat): (t: StreamState)
    requires |bytes| > 0 && WellFormed(bytes, s) && n <= Available(bytes, s)
    ensures WellFormed(bytes, t)
    ensures Available(bytes, t) == Available(bytes, s) - n
    ensures forall k: nat :: Upcoming(bytes, t, k) == Upcoming(bytes, s, k + n)
    decreases n
  {
    if n == 0 then s
    else
      DoneIffNothingAvailable(bytes, s);
      StepAdvances(bytes, s);
      var t := Consume(bytes, Step(bytes, s), n - 1);
      assert forall k: nat :: Upcoming(bytes, t, k) == Upcoming(bytes, Step(bytes, s), k + (n - 1));
      t
  }

  /** Consuming m bytes and then n more is consuming m + n. */
  lemma {:induction false} ConsumeAdds(bytes: seq<int8>, s: StreamState, m: nat, n: nat)
    requires |bytes| > 0 && WellFormed(bytes, s) && m + n <= Available(bytes, s)
    ensures Consume(bytes, Consume(bytes, s, m), n) == Consume(bytes, s, m + n)
    decreases m
  {
    if m > 0 {
      DoneIffNothingAvailable(bytes, s);
      StepAdvances(bytes, s);
      ConsumeAdds(bytes, Step(bytes, s), m - 1, n);
    }
  }

  /**
   * Taking a run of bytes that stays within the buffer is moving the position
   * past the run and then running checkBuf once.
   */
  lemma {:induction false} ConsumeRun(bytes: seq<int8>, s: StreamState, a: nat)
    requires |bytes| > 0 && WellFormed(bytes, s) && s.pos + a <= |bytes|
    ensures a <= Available(bytes, s)
    ensures Consume(bytes, s, a) == CheckBufState(bytes, StreamState(s.pos + a, s.remainder))
    decreases a
  {
    if a > 0 {
      DoneIffNothingAvailable(bytes, s);
      StepAdvances(bytes, s);
      var t := Step(bytes, s);
      if s.pos + 1 < |bytes| {
        ConsumeRun(bytes, t, a - 1);
      }
    }
  }

  /**
   * read(): -1 once done, a BufferUnderflowException when the buffer is empty
   * but rewinds are left, otherwise the octet at the position, after which the
   * state moves on by one byte.
   */
  function ReadStep(bytes: seq<int8>, s: StreamState): (res: (Outcome<int>, StreamState))
    requires WellFormed(bytes, s)
    ensures WellFormed(bytes, res.1)
    ensures IsDoneState(bytes, s) ==> res == (Ok(-1), s)
    ensures |bytes| == 0 && !IsDoneState(bytes, s) ==> res == (Thrown(BufferUnderflow), s)
    ensures res.0.Ok? && res.0.value != -1 ==> 0 <= res.0.value <= 255
  {
    if IsDoneState(bytes, s) then (Ok(-1), s)
    else if s.pos == |bytes| then (Thrown(BufferUnderflow), s)
    else (Ok(Octet(bytes[s.pos])), Step(bytes, s))
  }

  /** Over a non-empty buffer, read() delivers the next byte to come while one is left, and -1 after. */
  lemma ReadStepDelivers(bytes: seq<int8>, s: StreamState)
    requires |bytes| > 0 && WellFormed(bytes, s)
    ensures Available(bytes, s) == 0 ==> ReadStep(bytes, s) == (Ok(-1), s)
    ensures Available(bytes, s) > 0 ==>
              ReadStep(bytes, s) == (Ok(Octet(Upcoming(bytes, s, 0))), Consume(bytes, s, 1))
  {
    DoneIffNothingAvailable(bytes, s);
    if Available(bytes, s) > 0 {
      assert s.pos < |bytes|;
      assert (s.pos + 0) % |bytes| == s.pos;
    }
  }

  /** The results of `n` successive read() calls. */
  function ReadAll(bytes: seq<int8>, s: StreamState, n: nat): (rs: seq<Outcome<int>>)
    requires WellFormed(bytes, s)
    ensures |rs| == n
    decreases n
  {
    if n == 0 then []
    else
      var (r, t) := ReadStep(bytes, s);
      [r] + ReadAll(bytes, t, n - 1)
  }

  /**
   * Successive read() calls over a non-empty buffer deliver exactly the bytes
   * still to come, in order, as octets, and -1 from then on.
   */
  lemma {:induction false} ReadAllDelivers(bytes: seq<int8>, s: StreamState, n: nat)
    requires |bytes| > 0 && WellFormed(bytes, s)
    ensures forall k :: 0 <= k < n ==>
              ReadAll(bytes, s, n)[k] == if k < Available(bytes, s) then Ok(Octet(Upcoming(bytes, s, k))) else Ok(-1)
    decreases n
  {
    if n > 0 {
      ReadStepDelivers(bytes, s);
      var t := ReadStep(bytes, s).1;
      ReadAllDelivers(bytes, t, n - 1);
      var rs := ReadAll(bytes, s, n);
      forall k | 0 <= k < n
        ensures rs[k] == if k < Available(bytes, s) then Ok(Octet(Upcoming(bytes, s, k))) else Ok(-1)
      {
        if k > 0 {
          assert rs[k] == ReadAll(bytes, t, n - 1)[k - 1];
          if Available(bytes, s) > 0 {
            assert Upcoming(bytes, t, k - 1) == Upcoming(bytes, s, k - 1 + 1);
          }
        }
      }
    }
  }

  /**
   * A new stream over L > 0 bytes and a count `times` >= 0 delivers
   * bytes[k mod L] as its k-th byte for (times + 1) * L bytes, then -1: the
   * array is played times + 1 times.
   */
  lemma FreshStreamRepeats(bytes: seq<int8>, times: int64, n: nat)
    requires |bytes| > 0 && times >= 0
    ensures forall k :: 0 <= k < n ==>
              ReadAll(bytes, Initial(times), n)[k] ==
                if k < (times + 1) * |bytes| then Ok(Octet(bytes[k % |bytes|])) else Ok(-1)
  {
    var s := Initial(times);
    ReadAllDelivers(bytes, s, n);
    assert Available(bytes, s) == (times + 1) * |bytes|;
  }

  /** Over an empty array, a stream with rewinds left fails its first read(); one without is done at once. */
  lemma EmptyBytes(bytes: seq<int8>, times: int64)
    requires |bytes| == 0
    ensures times != 0 ==> ReadStep(bytes, Initial(times)) == (Thrown(BufferUnderflow), Initial(times))
    ensures times == 0 ==> ReadStep(bytes, Initial(times)) == (Ok(-1), Initial(times))
  {
  }

  /** The byte count read(b, off, len) asks for, as written: the Java `int` len - off. */
  function RequestedAsWritten(off: int32, len: int32): (rem: int32)
    ensures -0x8000_0000 <= len - off <= INT_MAX ==> rem == len - off
  {
    Wrap32(len - off)
  }

  /**
   * What read(b, off, len) returns when it returns normally, as written: -1
   * once done, else the smaller of len - off and the bytes still to come.
   */
  function ReadIntoCount(bytes: seq<int8>, s: StreamState, off: int32, len: int32): (n: int)
    requires WellFormed(bytes, s)
    ensures IsDoneState(bytes, s) <==> n == -1
    ensures n != -1 ==> 0 <= n <= Available(bytes, s) && (n > 0 ==> n <= RequestedAsWritten(off, len))
  {
    if IsDoneState(bytes, s) then -1
    else if RequestedAsWritten(off, len) <= 0 then 0
    else if |bytes| == 0 then 0
    else Min(RequestedAsWritten(off, len), Available(bytes, s))
  }

  /**
   * The outcome of the copy loop of read(b, off0, len) started with rem0 > 0
   * bytes requested: from state s0 and array contents b0 to s1 and b1, having
   * consumed `written` bytes. The loop stops at the first chunk it cannot place
   * in b (IndexOutOfBoundsException), keeping what it copied before.
   */
  ghost predicate TransferOutcome(bytes: seq<int8>, s0: StreamState, b0: seq<int8>, off0: int, rem0: int,
                                  r: Outcome<int32>, written: nat, s1: StreamState, b1: seq<int8>)
    requires WellFormed(bytes, s0)
  {
    |b1| == |b0| &&
    (written > 0 ==> 0 <= off0 && off0 + written <= |b0|) &&
    (forall i :: 0 <= i < |b0| && !(off0 <= i < off0 + written) ==> b1[i] == b0[i]) &&
    (r.Thrown? ==> r.error == IndexOutOfBounds) &&
    if |bytes| == 0 then
      // every pass copies nothing and spends one rewind
      written == 0 &&
      (r.Ok? <==> 0 <= off0 <= |b0|) &&
      (r.Ok? ==> r.value == 0 && s1 == StreamState(0, 0)) &&
      (r.Thrown? ==> s1 == s0)
    else
      var n := Min(rem0, Available(bytes, s0));
      written <= n &&
      s1 == Consume(bytes, s0, written) &&
      (forall k :: 0 <= k < written ==> b1[off0 + k] == Upcoming(bytes, s0, k)) &&
      (r.Ok? <==> 0 <= off0 && off0 + n <= |b0|) &&
      (r.Ok? ==> r.value == n && written == n)
  }

  /**
   * read(b, off, len) as InputStream specifies it: the bounds are checked
   * first, a request for 0 bytes returns 0, and otherwise up to len bytes are
   * read, -1 at the end.
   */
  function IntendedReadCount(bytes: seq<int8>, s: StreamState, len: int32): (n: int)
    requires WellFormed(bytes, s) && len >= 0
    ensures len == 0 ==> n == 0
    ensures len > 0 && IsDoneState(bytes, s) ==> n == -1
    ensures len > 0 && !IsDoneState(bytes, s) && |bytes| > 0 ==> 1 <= n <= len && n <= Available(bytes, s)
  {
    if len == 0 then 0
    else if IsDoneState(bytes, s) then -1
    else if |bytes| == 0 then 0
    else
      DoneIffNothingAvailable(bytes, s);
      Min(len, Available(bytes, s))
  }

  /**
   * As written, read(b, 4, 4) on a new stream over one byte returns 0 without
   * reading, although the stream is not at its end and 4 bytes were asked for;
   * InputStream's contract asks for at least one byte there.
   */
  lemma ReadIntoCountsFromOffset()
    ensures ReadIntoCount([7], Initial(0), 4, 4) == 0
    ensures IntendedReadCount([7], Initial(0), 4) == 1
    ensures !IsDoneState([7], Initial(0))
  {
    assert Available([7], Initial(0)) == 1;
  }

  class RepeatInputStream {
    const bytes: seq<int8>
    const times: int64
    var remainder: int64
    var pos: nat

    function State(): (s: StreamState)
      reads this
      ensures s.pos == pos && s.remainder == remainder
    {
      StreamState(pos, remainder)
    }

    /**
     * The state is well formed, and a stream built with times >= 0 counts
     * down from times and never goes negative.
     */
    ghost predicate Valid()
      reads this
    {
      WellFormed(bytes, State()) && (times >= 0 ==> 0 <= remainder <= times)
    }

    constructor (bytes: seq<int8>, times: int64)
      ensures this.bytes == bytes && this.times == times
      ensures State() == Initial(times) && Valid()
    {
      this.bytes := bytes;
      this.times := times;
      remainder := times;
      pos := 0;
    }

    function IsDone(): (b: bool)
      reads this
      ensures b <==> remainder == 0 && pos >= |bytes|
      ensures b <==> IsDoneState(bytes, State())
    {
      remainder == 0 && pos >= |bytes|
    }

    method CheckBuf()
      requires pos <= |bytes| && (times >= 0 ==> 0 <= remainder <= times)
      modifies this
      ensures State() == CheckBufState(bytes, old(State()))
      ensures Valid()
    {
      if !IsDone() && pos >= |bytes| {
        remainder := LongDecrement(remainder);
        pos := 0;
      }
    }

    method Read() returns (r: Outcome<int>)
      requires Valid()
      modifies this
      ensures Valid()
      ensures (r, State()) == ReadStep(bytes, old(State()))
    {
      if IsDone() {
        return Ok(-1);
      }
      if pos >= |bytes| {
        return Thrown(BufferUnderflow);
      }
      var octet := Octet(bytes[pos]);
      pos := pos + 1;
      CheckBuf();
      r := Ok(octet);
    }

    /**
     * One pass of the copy loop: buf.get(b, off, amount) for a run that stays
     * within the buffer, then checkBuf. Stated against the state s0 the loop
     * started from, c0 bytes ago, with the copy begun at off0.
     */
    method CopyRun(b: array<int8>, off: int, amount: nat, ghost s0: StreamState, ghost c0: nat, ghost off0: int)
      requires Valid() && pos + amount <= |bytes| && 0 <= off && off + amount <= b.Length
      requires off == off0 + c0
      requires |bytes| > 0 ==> WellFormed(bytes, s0) && c0 <= Available(bytes, s0) && State() == Consume(bytes, s0, c0)
      modifies this, b
      ensures Valid()
      ensures |bytes| > 0 ==>
                c0 + amount <= Available(bytes, s0) && State() == Consume(bytes, s0, c0 + amount) &&
                forall i :: off <= i < off + amount ==> b[i] == Upcoming(bytes, s0, i - off0)
      ensures |bytes| == 0 ==> State() == CheckBufState(bytes, old(State()))
      ensures forall i :: 0 <= i < b.Length && !(off <= i < off + amount) ==> b[i] == old(b[i])
    {
      ghost var before := State();
      forall i | off <= i < off + amount {
        b[i] := bytes[pos + (i - off)];
      }
      pos := pos + amount;
      CheckBuf();
      if |bytes| > 0 {
        ConsumeRun(bytes, before, amount);
        ConsumeAdds(bytes, s0, c0, amount);
        forall i | off <= i < off + amount
          ensures b[i] == Upcoming(bytes, s0, i - off0)
        {
          var j := i - off;
          ModUnique(before.pos + j, |bytes|, 0, before.pos + j);
          assert Upcoming(bytes, before, j) == Upcoming(bytes, s0, j + c0);
        }
      }
    }

    /**
     * The copy loop of read(b, off, len): `rem` bytes requested, copied in
     * runs that end at the buffer's end, each run followed by checkBuf.
     */
    method Transfer(b: array<int8>, off0: int32, rem0: int32) returns (r: Outcome<int32>, ghost written: nat)
      requires Valid() && !IsDone() && rem0 > 0 && b.Length <= INT_MAX
      modifies this, b
      ensures Valid()
      ensures TransferOutcome(bytes, old(State()), old(b[..]), off0, rem0, r, written, State(), b[..])
    {
      ghost var s0 := State();
      ghost var b0 := b[..];
      var off := off0;
      var rem := rem0;
      var consumed: int32 := 0;
      while rem > 0 && !IsDone()
        invariant Valid()
        invariant 0 <= consumed <= rem0 && off == off0 + consumed && rem == rem0 - consumed
        invariant consumed > 0 ==> 0 <= off0 && off0 + consumed <= b.Length
        invariant forall i :: 0 <= i < b.Length && !(off0 <= i < off0 + consumed) ==> b[i] == b0[i]
        invariant |bytes| > 0 ==>
                    consumed <= Available(bytes, s0) && State() == Consume(bytes, s0, consumed) &&
                    forall k :: 0 <= k < consumed ==> b[off0 + k] == Upcoming(bytes, s0, k)
        invariant |bytes| == 0 ==> consumed == 0 && pos == 0 && (0 <= off0 <= b.Length || State() == s0)
        decreases rem, Copies(remainder)
      {
        var amount := Min(rem, |bytes| - pos);
        if off < 0 || off + amount > b.Length {
          if |bytes| > 0 {
            AvailableCoversBuffer(bytes, State());
            assert consumed + amount <= Min(rem0, Available(bytes, s0));
          }
          return Thrown(IndexOutOfBounds), consumed;
        }
        CopyRun(b, off, amount, s0, consumed, off0);
        off := off + amount;
        rem := rem - amount;
        consumed := consumed + amount;
      }
      if |bytes| > 0 {
        DoneIffNothingAvailable(bytes, State());
        assert consumed == Min(rem0, Available(bytes, s0));
      }
      written := consumed;
      r := Ok(consumed);
    }

    /**
     * read(b, off, len) as written: -1 once done; otherwise it asks for
     * len - off bytes (not len) and copies them into b from off on.
     */
    method ReadInto(b: array<int8>, off: int32, len: int32) returns (r: Outcome<int32>, ghost written: nat)
      requires Valid() && b.Length <= INT_MAX
      modifies this, b
      ensures Valid()
      ensures r.Ok? ==> r.value == ReadIntoCount(bytes, old(State()), off, len)
      ensures old(IsDone()) || RequestedAsWritten(off, len) <= 0 ==>
                r.Ok? && State() == old(State()) && b[..] == old(b[..])
      ensures !old(IsDone()) && RequestedAsWritten(off, len) > 0 ==>
                TransferOutcome(bytes, old(State()), old(b[..]), off, RequestedAsWritten(off, len),
                                r, written, State(), b[..])
    {
      written := 0;
      if IsDone() {
        return Ok(-1), 0;
      }
      var rem := RequestedAsWritten(off, len);
      if rem <= 0 {
        return Ok(0), 0;
      }
      r, written := Transfer(b, off, rem);
    }

    /**
     * read(b, off, len) as InputStream specifies it, the intended counterpart
     * of ReadInto: it honours len as a count and checks the bounds first.
     */
    method ReadIntoIntended(b: array<int8>, off: int32, len: int32) returns (r: Outcome<int32>, ghost written: nat)
      requires Valid() && b.Length <= INT_MAX
      modifies this, b
      ensures Valid()
      ensures r.Thrown? <==> off < 0 || len < 0 || off + len > b.Length
      ensures r.Thrown? ==> r.error == IndexOutOfBounds && State() == old(State()) && b[..] == old(b[..])
      ensures r.Ok? ==> r.value == IntendedReadCount(bytes, old(State()), len)
      ensures r.Ok? && (len == 0 || old(IsDone())) ==> State() == old(State()) && b[..] == old(b[..])
      ensures r.Ok? && len > 0 && !old(IsDone()) ==>
                TransferOutcome(bytes, old(State()), old(b[..]), off, len, r, written, State(), b[..])
    {
      written := 0;
      if off < 0 || len < 0 || off + len > b.Length {
        return Thrown(IndexOutOfBounds), 0;
      }
      if len == 0 {
        return Ok(0), 0;
      }
      if IsDone() {
        return Ok(-1), 0;
      }
      r, written := Transfer(b, off, len);
      if |bytes| > 0 {
        DoneIffNothingAvailable(bytes, old(State()));
      }
    }
  }
}
