/** Reading an adopted patch as a stream: bounded ranges are requested one behind
    the other, handed out in whatever sizes the consumer asks for, and the end is
    reported only for bytes with the declared length and digest. */
module PatchReader {
  import opened Ordering
  import opened Wrappers

  type Digest(==)

  const RANGE_BYTES: nat := 262144

  /** The identity of the patch: its declared length and digest. */
  datatype Identity = Identity(length: nat, digest: Digest)

  datatype Request = Request(offset: nat, maxBytes: nat)

  /** A request, and how many bytes of the answer were accepted. */
  datatype Asked = Asked(request: Request, accepted: nat)

  /** A range as the store answers it. `genuine` stands for its identity fields and
      its own digest being right and the range being complete. */
  datatype Range = Range(genuine: bool, offset: nat, length: nat, bytes: Bytes)

  datatype Status = Read | EndOfFile | Stale | Unavailable

  /** `returned` is what has been handed out, which is what the hash has absorbed;
      `asked` records the ranges asked for. */
  datatype Reader = Reader(offset: nat, buffer: Bytes, returned: Bytes, verified: bool, asked: seq<Asked>)

  predicate ValidRequest(id: Identity, request: Request) {
    id.length != 0 && 0 < request.maxBytes <= RANGE_BYTES && request.offset <= id.length
  }

  predicate ValidRange(id: Identity, request: Request, range: Range) {
    && ValidRequest(id, request) && range.genuine && range.offset == request.offset && range.length == |range.bytes|
    && range.length <= request.maxBytes && range.length <= id.length - range.offset
  }

  function Min(a: nat, b: nat): nat { if a <= b then a else b }

  // ---------------------------------------------------------------------
  // One read
  // ---------------------------------------------------------------------

  predicate Wants(id: Identity, r: Reader, size: nat) { size != 0 && r.buffer == [] && r.offset < id.length }

  function NextRequest(r: Reader, size: nat): Request { Request(r.offset, Min(size, RANGE_BYTES)) }

  /** The reader once it has asked for a range, and how the asking went. */
  function Fill(id: Identity, r: Reader, size: nat, answer: Option<Range>): (Reader, Status) {
    if !Wants(id, r, size) then (r, Read)
    else
      var request := NextRequest(r, size);
      var refused := r.(asked := r.asked + [Asked(request, 0)]);
      if answer.None? then (refused, Unavailable)
      else if !ValidRange(id, request, answer.value) || answer.value.length == 0 then (refused, Stale)
      else
        (r.(buffer := answer.value.bytes, offset := r.offset + answer.value.length,
            asked := r.asked + [Asked(request, answer.value.length)]), Read)
  }

  /** Hands out what is buffered, or ends. */
  function Drain(id: Identity, digest: Bytes -> Digest, r: Reader, size: nat): (Reader, nat, Status) {
    if r.buffer == [] then
      if !r.verified && digest(r.returned) != id.digest then (r, 0, Stale)
      else (r.(verified := true), 0, EndOfFile)
    else
      var n := Min(size, |r.buffer|);
      (r.(returned := r.returned + r.buffer[..n], buffer := r.buffer[n..]), n, Read)
  }

  function ReadStep(id: Identity, digest: Bytes -> Digest, r: Reader, size: nat, answer: Option<Range>): (Reader, nat, Status) {
    if size == 0 then (r, 0, Read)
    else
      var (filled, status) := Fill(id, r, size, answer);
      if status != Read then (filled, 0, status) else Drain(id, digest, filled, size)
  }

  // ---------------------------------------------------------------------
  // What every sequence of reads keeps
  // ---------------------------------------------------------------------

  const FRESH := Reader(0, [], [], false, [])

  /** The bytes accepted in answer to all these requests. */
  function Total(asked: seq<Asked>): nat {
    if asked == [] then 0 else Total(asked[..|asked| - 1]) + asked[|asked| - 1].accepted
  }

  lemma TotalNext(asked: seq<Asked>, next: Asked)
    ensures Total(asked + [next]) == Total(asked) + next.accepted
  {
    assert (asked + [next])[..|asked|] == asked;
  }

  /** Each request begins where the accepted answers before it end. */
  ghost predicate Follow(asked: seq<Asked>) {
    forall i :: 0 <= i < |asked| ==>
      asked[i].request.offset == Total(asked[..i]) && 0 < asked[i].request.maxBytes <= RANGE_BYTES &&
      asked[i].accepted <= asked[i].request.maxBytes
  }

  lemma FollowNext(asked: seq<Asked>, next: Asked)
    requires Follow(asked) && next.request.offset == Total(asked)
    requires 0 < next.request.maxBytes <= RANGE_BYTES && next.accepted <= next.request.maxBytes
    ensures Follow(asked + [next])
  {
    var more := asked + [next];
    forall i | 0 <= i < |more| ensures more[i].request.offset == Total(more[..i]) {
      assert more[..i] == asked[..i];
      assert i == |asked| ==> asked[..i] == asked;
    }
  }

  /** Nothing is skipped or repeated: what was handed out and what is buffered end
      exactly at the offset; and once verified the whole patch was handed out. */
  ghost predicate Contiguous(id: Identity, digest: Bytes -> Digest, r: Reader) {
    && |r.returned| + |r.buffer| == r.offset <= id.length
    && (r.verified ==> |r.returned| == id.length && digest(r.returned) == id.digest)
    && Follow(r.asked) && Total(r.asked) == r.offset
  }

  lemma ReadKeepsContiguous(id: Identity, digest: Bytes -> Digest, r: Reader, size: nat, answer: Option<Range>)
    requires Contiguous(id, digest, r)
    ensures Contiguous(id, digest, ReadStep(id, digest, r, size, answer).0)
  {
    hide Follow, Total;
    if size != 0 && Wants(id, r, size) {
      var request := NextRequest(r, size);
      FollowNext(r.asked, Asked(request, 0));
      TotalNext(r.asked, Asked(request, 0));
      if answer.Some? && ValidRange(id, request, answer.value) {
        FollowNext(r.asked, Asked(request, answer.value.length));
        TotalNext(r.asked, Asked(request, answer.value.length));
      }
    }
  }

  /** What one read reports: bytes it did hand out, or an end that is the end. */
  lemma ReadReportsTruly(id: Identity, digest: Bytes -> Digest, r: Reader, size: nat, answer: Option<Range>)
    requires Contiguous(id, digest, r)
    ensures var (t, n, status) := ReadStep(id, digest, r, size, answer);
            && n <= size && |t.returned| == |r.returned| + n && r.returned <= t.returned
            && (status == EndOfFile ==> n == 0 && |t.returned| == id.length && digest(t.returned) == id.digest)
            && (status == Read && size != 0 ==> n > 0)
            && (t.asked != r.asked ==>
                  |t.asked| == |r.asked| + 1 && r.asked < t.asked &&
                  t.asked[|r.asked|] == Asked(Request(r.offset, Min(size, RANGE_BYTES)), t.offset - r.offset))
  {
    hide Follow, Total;
  }

  /** One read of a run: how much room there is, and how the store answers. */
  datatype Call = Call(size: nat, answer: Option<Range>)

  function Run(id: Identity, digest: Bytes -> Digest, r: Reader, calls: seq<Call>): Reader
    decreases |calls|
  {
    if calls == [] then r
    else Run(id, digest, ReadStep(id, digest, r, calls[0].size, calls[0].answer).0, calls[1..])
  }

  lemma {:induction false} RunKeepsContiguous(id: Identity, digest: Bytes -> Digest, r: Reader, calls: seq<Call>)
    requires Contiguous(id, digest, r)
    ensures Contiguous(id, digest, Run(id, digest, r, calls))
    decreases |calls|
  {
    hide Contiguous, ReadStep;
    if calls != [] {
      ReadKeepsContiguous(id, digest, r, calls[0].size, calls[0].answer);
      RunKeepsContiguous(id, digest, ReadStep(id, digest, r, calls[0].size, calls[0].answer).0, calls[1..]);
    }
  }

  /** Whatever sizes the consumer asks for and whatever the store answers, the end
      of the file is reported only after bytes of exactly the declared length and
      digest. */
  lemma EndOfFileIsTheEnd(id: Identity, digest: Bytes -> Digest, calls: seq<Call>, last: Call)
    requires ReadStep(id, digest, Run(id, digest, FRESH, calls), last.size, last.answer).2 == EndOfFile
    ensures var r := Run(id, digest, FRESH, calls); |r.returned| == id.length && digest(r.returned) == id.digest
  {
    hide Run;
    RunKeepsContiguous(id, digest, FRESH, calls);
    ReadReportsTruly(id, digest, Run(id, digest, FRESH, calls), last.size, last.answer);
  }

  /** Over every run each request begins where the accepted answers before it end,
      asks for no more than a range, and what was accepted in all is what was handed
      out and what is buffered. */
  lemma RequestsFollowOneAnother(id: Identity, digest: Bytes -> Digest, calls: seq<Call>, i: nat)
    ensures var r := Run(id, digest, FRESH, calls);
            && Total(r.asked) == |r.returned| + |r.buffer| <= id.length
            && (i < |r.asked| ==> r.asked[i].request.offset == Total(r.asked[..i]) && 0 < r.asked[i].request.maxBytes <= RANGE_BYTES)
  {
    hide Run, Total;
    assert Total([]) == 0 by { NothingAsked(); }
    RunKeepsContiguous(id, digest, FRESH, calls);
  }

  lemma NothingAsked()
    ensures Total([]) == 0
  {
  }

  /** Every range accepted holds the patch's own bytes. */
  predicate Honest(patch: Bytes, call: Call) {
    call.answer.Some? && call.answer.value.offset + |call.answer.value.bytes| <= |patch| ==>
      call.answer.value.bytes == patch[call.answer.value.offset..call.answer.value.offset + |call.answer.value.bytes|]
  }

  predicate AllHonest(patch: Bytes, calls: seq<Call>) {
    calls == [] || (Honest(patch, calls[0]) && AllHonest(patch, calls[1..]))
  }

  ghost predicate Streams(patch: Bytes, r: Reader) {
    r.offset <= |patch| && r.returned + r.buffer == patch[..r.offset]
  }

  lemma ReadStreams(id: Identity, digest: Bytes -> Digest, patch: Bytes, r: Reader, call: Call)
    requires Streams(patch, r) && Honest(patch, call) && id.length == |patch|
    ensures Streams(patch, ReadStep(id, digest, r, call.size, call.answer).0)
  {
    var (filled, status) := Fill(id, r, call.size, call.answer);
    if call.size != 0 {
      FillStreams(id, patch, r, call);
      DrainStreams(id, digest, patch, filled, call.size);
    }
  }

  lemma FillStreams(id: Identity, patch: Bytes, r: Reader, call: Call)
    requires Streams(patch, r) && Honest(patch, call) && id.length == |patch|
    ensures Streams(patch, Fill(id, r, call.size, call.answer).0)
  {
    var (filled, status) := Fill(id, r, call.size, call.answer);
    if filled.offset != r.offset {
      assert r.buffer == [] && r.returned == patch[..r.offset];
      assert patch[..filled.offset] == patch[..r.offset] + patch[r.offset..filled.offset];
    }
  }

  lemma DrainStreams(id: Identity, digest: Bytes -> Digest, patch: Bytes, r: Reader, size: nat)
    requires Streams(patch, r)
    ensures Streams(patch, Drain(id, digest, r, size).0)
  {
    var n := Min(size, |r.buffer|);
    assert r.buffer == r.buffer[..n] + r.buffer[n..];
    assert r.returned + r.buffer[..n] + r.buffer[n..] == r.returned + r.buffer;
  }

  /** Over an honest store the consumer receives the patch, byte for byte, from its
      beginning. */
  lemma {:induction false} HonestRunsStreamThePatch(id: Identity, digest: Bytes -> Digest, patch: Bytes, r: Reader, calls: seq<Call>)
    requires Streams(patch, r) && AllHonest(patch, calls) && id.length == |patch|
    ensures Streams(patch, Run(id, digest, r, calls))
    ensures Run(id, digest, r, calls).returned <= patch
    decreases |calls|
  {
    hide ReadStep, Honest;
    if calls == [] {
      assert r.returned <= patch[..r.offset];
    } else {
      ReadStreams(id, digest, patch, r, calls[0]);
      HonestRunsStreamThePatch(id, digest, patch, ReadStep(id, digest, r, calls[0].size, calls[0].answer).0, calls[1..]);
    }
  }

  /** A genuine range that begins where the bytes handed out end, holds some bytes, but
      no more than there is room for, than 256 KiB or than the patch still has. */
  predicate Continues(id: Identity, returned: Bytes, size: nat, range: Range) {
    && range.genuine && range.offset == |returned| && range.length == |range.bytes|
    && 0 < range.length <= size && range.length <= 262144 && |returned| + range.length <= id.length
  }

  /** Over every run, what a read with room reports: the end exactly if all declared
      bytes are handed out and have the declared digest; staleness exactly if they
      have another, or the range asked for does not continue them; that the store is
      unavailable exactly if it did not answer; and else bytes, as many as there is
      room for or the range at hand still holds. */
  lemma ReportsIff(id: Identity, digest: Bytes -> Digest, calls: seq<Call>, last: Call)
    requires last.size > 0
    ensures var r := Run(id, digest, FRESH, calls);
            var (t, n, status) := ReadStep(id, digest, r, last.size, last.answer);
            var complete := |r.returned| == id.length;
            var asks := r.buffer == [] && !complete;
            var accepts := last.answer.Some? && Continues(id, r.returned, last.size, last.answer.value);
            && (status == EndOfFile <==> complete && digest(r.returned) == id.digest)
            && (status == Unavailable <==> asks && last.answer.None?)
            && (status == Stale <==> (complete && digest(r.returned) != id.digest) || (asks && last.answer.Some? && !accepts))
            && (status == Read <==> r.buffer != [] || (asks && accepts))
            && (status == Read ==>
                  n == Min(last.size, if asks then |last.answer.value.bytes| else |r.buffer|) && |t.returned| == |r.returned| + n)
            && (status != Read ==> n == 0 && t.returned == r.returned)
  {
    hide Run, Follow, Total, ValidRange;
    FreshIsContiguous(id, digest);
    RunKeepsContiguous(id, digest, FRESH, calls);
    var r := Run(id, digest, FRESH, calls);
    if last.answer.Some? && r.buffer == [] && |r.returned| < id.length {
      ContinuesIff(id, r, last.size, last.answer.value);
    }
  }

  lemma FreshIsContiguous(id: Identity, digest: Bytes -> Digest)
    ensures Contiguous(id, digest, FRESH)
  {
  }

  lemma ContinuesIff(id: Identity, r: Reader, size: nat, range: Range)
    requires r.buffer == [] && |r.returned| == r.offset < id.length && size > 0
    ensures Continues(id, r.returned, size, range) <==> ValidRange(id, NextRequest(r, size), range) && range.length > 0
    ensures Continues(id, r.returned, size, range) ==> range.length == |range.bytes|
  {
  }

  /** Every read has room, and the store answers what it is asked for, with bytes of
      the patch. */
  ghost predicate Served(id: Identity, digest: Bytes -> Digest, patch: Bytes, r: Reader, calls: seq<Call>)
    decreases |calls|
  {
    calls == [] ||
    (&& calls[0].size > 0 && Honest(patch, calls[0])
     && (r.buffer == [] && r.offset < id.length ==>
           calls[0].answer.Some? && ValidRange(id, NextRequest(r, calls[0].size), calls[0].answer.value) &&
           calls[0].answer.value.length > 0)
     && Served(id, digest, patch, ReadStep(id, digest, r, calls[0].size, calls[0].answer).0, calls[1..]))
  }

  lemma ServedReadAdvances(id: Identity, digest: Bytes -> Digest, patch: Bytes, r: Reader, call: Call)
    requires Contiguous(id, digest, r) && Served(id, digest, patch, r, [call]) && |r.returned| < id.length
    ensures |ReadStep(id, digest, r, call.size, call.answer).0.returned| > |r.returned|
  {
    hide Follow, Total;
    assert [call][0] == call;
  }

  lemma {:induction false} ServedRunsAdvance(id: Identity, digest: Bytes -> Digest, patch: Bytes, r: Reader, calls: seq<Call>)
    requires Contiguous(id, digest, r) && Served(id, digest, patch, r, calls)
    ensures |Run(id, digest, r, calls).returned| >= Min(id.length, |r.returned| + |calls|)
    ensures AllHonest(patch, calls)
    decreases |calls|
  {
    hide Contiguous, ReadStep, Honest;
    if calls != [] {
      var t := ReadStep(id, digest, r, calls[0].size, calls[0].answer).0;
      ReadKeepsContiguous(id, digest, r, calls[0].size, calls[0].answer);
      ReadReportsTruly(id, digest, r, calls[0].size, calls[0].answer);
      if |r.returned| < id.length {
        assert Served(id, digest, patch, r, [calls[0]]);
        ServedReadAdvances(id, digest, patch, r, calls[0]);
      }
      ServedRunsAdvance(id, digest, patch, t, calls[1..]);
    }
  }

  /** A store that serves the patch is read to its end: after as many reads as it has
      bytes, at most, all of it is handed out, and the next read reports the end. */
  lemma AServedPatchIsReadToItsEnd(id: Identity, digest: Bytes -> Digest, patch: Bytes, calls: seq<Call>, last: Call)
    requires id.length == |patch| && id.digest == digest(patch) && last.size > 0
    requires Served(id, digest, patch, FRESH, calls) && |calls| >= |patch|
    ensures Run(id, digest, FRESH, calls).returned == patch
    ensures ReadStep(id, digest, Run(id, digest, FRESH, calls), last.size, last.answer).2 == EndOfFile
  {
    hide Run, Served, ReadStep, Follow;
    FreshIsContiguous(id, digest);
    ServedRunsAdvance(id, digest, patch, FRESH, calls);
    RunKeepsContiguous(id, digest, FRESH, calls);
    HonestRunsStreamThePatch(id, digest, patch, FRESH, calls);
    ReportsIff(id, digest, calls, last);
  }

  // ---------------------------------------------------------------------
  // The reader as an object
  // ---------------------------------------------------------------------

  class ProposalPatchRangeReader {
    const id: Identity
    var offset: nat
    var buffer: Bytes
    var hashed: Bytes
    var verified: bool
    ghost var asked: seq<Asked>

    constructor (id: Identity)
      ensures this.id == id && View() == FRESH
    {
      this.id := id;
      offset, buffer, hashed, verified, asked := 0, [], [], false, [];
    }

    ghost function View(): Reader
      reads this
    {
      Reader(offset, buffer, hashed, verified, asked)
    }

    /** Copies what the read hands out to the front of the output and leaves the
        rest of it alone. */
    method Read(output: array<Byte>, digest: Bytes -> Digest, answer: Option<Range>) returns (n: nat, status: Status)
      modifies this, output
      ensures (View(), n, status) == ReadStep(id, digest, old(View()), output.Length, answer)
      ensures n <= output.Length && hashed == old(hashed) + output[..n]
      ensures output[n..] == old(output[..])[n..]
    {
      if output.Length == 0 {
        return 0, Status.Read;
      }
      if |buffer| == 0 && offset < id.length {
        var max := output.Length;
        if max > RANGE_BYTES {
          max := RANGE_BYTES;
        }
        var request := Request(offset, max);
        if answer.None? {
          asked := asked + [Asked(request, 0)];
          return 0, Unavailable;
        }
        var value := answer.value;
        if !ValidRange(id, request, value) || value.offset != offset || value.length == 0 {
          asked := asked + [Asked(request, 0)];
          return 0, Stale;
        }
        asked := asked + [Asked(request, value.length)];
        buffer, offset := value.bytes, offset + value.length;
      }
      if |buffer| == 0 {
        if !verified {
          if digest(hashed) != id.digest {
            return 0, Stale;
          }
          verified := true;
        }
        return 0, EndOfFile;
      }
      n := if output.Length < |buffer| then output.Length else |buffer|;
      forall i | 0 <= i < n {
        output[i] := buffer[i];
      }
      assert output[..n] == buffer[..n];
      buffer, hashed := buffer[n..], hashed + output[..n];
      return n, Status.Read;
    }
  }
}
