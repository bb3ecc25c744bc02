/** The keyset scan that finds every image, and the greedy batches of the linear run. */
module BackfillBatches {

  // ---------------------------------------------------------------- concatenation

  function Flatten<T>(batches: seq<seq<T>>): seq<T> {
    if batches == [] then [] else Flatten(batches[..|batches| - 1]) + batches[|batches| - 1]
  }

  lemma FlattenAppend<T>(batches: seq<seq<T>>, b: seq<T>)
    ensures Flatten(batches + [b]) == Flatten(batches) + b
  {
    assert (batches + [b])[..|batches|] == batches;
  }

  // ---------------------------------------------------------------- the keyset scan

  predicate Ascending(pks: seq<nat>) {
    forall i, j :: 0 <= i < j < |pks| ==> pks[i] < pks[j]
  }

  /** The first `limit` rows with last < pk <= max, in ascending order. */
  method Page(pks: seq<nat>, last: nat, max: nat, limit: nat) returns (page: seq<nat>, ghost from: nat)
    requires Ascending(pks)
    ensures from + |page| <= |pks| && page == pks[from..from + |page|]
    ensures from > 0 ==> pks[from - 1] <= last
    ensures from < |pks| ==> pks[from] > last
    ensures forall i :: 0 <= i < |page| ==> page[i] <= max
    ensures |page| <= limit
    ensures |page| < limit && from + |page| < |pks| ==> pks[from + |page|] > max
  {
    var i := 0;
    while i < |pks| && pks[i] <= last
      invariant 0 <= i <= |pks| && forall j :: 0 <= j < i ==> pks[j] <= last
    {
      i := i + 1;
    }
    from := i;
    page := [];
    while i < |pks| && |page| < limit && pks[i] <= max
      invariant from <= i <= |pks| && |page| == i - from && page == pks[from..i] && |page| <= limit
      invariant forall j :: 0 <= j < |page| ==> page[j] <= max
    {
      page := page + [pks[i]];
      i := i + 1;
    }
  }

  /**
   Page through the table by primary key. Every image is visited exactly once,
   in ascending order, in pages of at most `batchSize`.
   */
  method PlanBatches(pks: seq<nat>, batchSize: nat) returns (batches: seq<seq<nat>>)
    requires Ascending(pks) && batchSize > 0 && forall i :: 0 <= i < |pks| ==> pks[i] > 0
    ensures Flatten(batches) == pks
    ensures forall b :: b in batches ==> 0 < |b| <= batchSize
  {
    batches := [];
    var lastPk := 0;
    var maxPk := if pks == [] then 0 else pks[|pks| - 1];
    ghost var done := 0;
    while lastPk < maxPk
      invariant 0 <= done <= |pks| && Flatten(batches) == pks[..done]
      invariant done > 0 ==> pks[done - 1] == lastPk
      invariant done < |pks| ==> pks[done] > lastPk
      invariant lastPk <= maxPk
      invariant forall b :: b in batches ==> 0 < |b| <= batchSize
    {
      var page, from := Page(pks, lastPk, maxPk, batchSize);
      assert from == done;
      if page == [] {
        return;
      }
      FlattenAppend(batches, page);
      batches := batches + [page];
      done := done + |page|;
      lastPk := page[|page| - 1];
      assert pks[..done] == pks[..from] + page;
    }
    assert forall i :: 0 <= i < |pks| ==> pks[i] <= maxPk;
    assert pks[..|pks|] == pks;
  }

  // ---------------------------------------------------------------- greedy batches

  datatype Limits = Limits(maxImages: nat, maxBytes: nat, maxPixels: nat)

  datatype Receipt = Receipt(size: nat, width: nat, height: nat)

  /** An image to register, with the receipts of its files. */
  datatype BatchCandidate = BatchCandidate(receipts: seq<Receipt>)

  function Bytes(rs: seq<Receipt>): nat {
    if rs == [] then 0 else Bytes(rs[..|rs| - 1]) + rs[|rs| - 1].size
  }

  function Pixels(rs: seq<Receipt>): nat {
    if rs == [] then 0 else Pixels(rs[..|rs| - 1]) + rs[|rs| - 1].width * rs[|rs| - 1].height
  }

  /** Sizes and pixels of receipts are sums, over files and over images. */
  lemma {:induction false} ReceiptsAdd(a: seq<Receipt>, b: seq<Receipt>)
    ensures Bytes(a + b) == Bytes(a) + Bytes(b) && Pixels(a + b) == Pixels(a) + Pixels(b)
    decreases |b|
  {
    if b == [] {
      assert a + b == a;
    } else {
      assert (a + b)[..|a + b| - 1] == a + b[..|b| - 1];
      ReceiptsAdd(a, b[..|b| - 1]);
    }
  }

  lemma OneImage(r: Receipt)
    ensures Bytes([r]) == r.size && Pixels([r]) == r.width * r.height
    ensures TotalBytes([BatchCandidate([r])]) == r.size && TotalPixels([BatchCandidate([r])]) == r.width * r.height
  {
    assert [r][..0] == [];
    assert [BatchCandidate([r])][..0] == [];
  }

  function TotalBytes(batch: seq<BatchCandidate>): nat {
    if batch == [] then 0 else TotalBytes(batch[..|batch| - 1]) + Bytes(batch[|batch| - 1].receipts)
  }

  function TotalPixels(batch: seq<BatchCandidate>): nat {
    if batch == [] then 0 else TotalPixels(batch[..|batch| - 1]) + Pixels(batch[|batch| - 1].receipts)
  }

  predicate Within(l: Limits, batch: seq<BatchCandidate>) {
    |batch| <= l.maxImages && TotalBytes(batch) <= l.maxBytes && TotalPixels(batch) <= l.maxPixels
  }

  /** Not empty, and within the limits unless it is a single image. */
  predicate GoodBatch(l: Limits, batch: seq<BatchCandidate>) {
    |batch| > 0 && (|batch| >= 2 ==> Within(l, batch))
  }

  predicate Overflows(l: Limits, batch: seq<BatchCandidate>, next: seq<BatchCandidate>) {
    |next| > 0 && !Within(l, batch + [next[0]])
  }

  /** What batches built within the limits and closed only when full add up to. */
  lemma BatchesMean(l: Limits, batches: seq<seq<BatchCandidate>>)
    requires (forall b :: b in batches ==> GoodBatch(l, b)) && ClosedOnlyWhenFull(l, batches)
    ensures forall b :: b in batches ==>
              && b != []
              && (|b| >= 2 ==> |b| <= l.maxImages && TotalBytes(b) <= l.maxBytes && TotalPixels(b) <= l.maxPixels)
    ensures forall n :: 0 <= n < |batches| - 1 ==>
              var b, c := batches[n], batches[n + 1][0];
              || |b| + 1 > l.maxImages
              || TotalBytes(b) + Bytes(c.receipts) > l.maxBytes || TotalPixels(b) + Pixels(c.receipts) > l.maxPixels
  {
    forall n | 0 <= n < |batches| - 1 ensures Overflows(l, batches[n], batches[n + 1]) {
      assert batches[n] in batches && batches[n + 1] in batches;
    }
    forall n | 0 <= n < |batches| - 1 {
      TotalsAppend(batches[n], batches[n + 1][0]);
    }
  }

  /** Every batch but the last is followed by an image that would not have fitted into it. */
  ghost predicate ClosedOnlyWhenFull(l: Limits, batches: seq<seq<BatchCandidate>>) {
    forall b, n :: 0 <= b < n < |batches| && n == b + 1 ==> Overflows(l, batches[b], batches[n])
  }

  lemma TotalsAppend(batch: seq<BatchCandidate>, c: BatchCandidate)
    ensures TotalBytes(batch + [c]) == TotalBytes(batch) + Bytes(c.receipts)
    ensures TotalPixels(batch + [c]) == TotalPixels(batch) + Pixels(c.receipts)
  {
    assert (batch + [c])[..|batch|] == batch;
  }

  /** Both facts about finished batches, built up batch by batch. */
  ghost predicate Finished(l: Limits, batches: seq<seq<BatchCandidate>>) {
    batches == [] ||
    (var n := |batches|;
     && GoodBatch(l, batches[n - 1])
     && (n >= 2 ==> Overflows(l, batches[n - 2], batches[n - 1]))
     && Finished(l, batches[..n - 1]))
  }

  /** Where the loop stands: finished batches, the open batch, and what they have consumed. */
  ghost predicate Cut(l: Limits, batches: seq<seq<BatchCandidate>>, batch: seq<BatchCandidate>, consumed: seq<BatchCandidate>) {
    && Flatten(batches) + batch == consumed
    && Finished(l, batches)
    && (batch != [] ==> GoodBatch(l, batch))
    && (batches != [] ==> batch != [] && Overflows(l, batches[|batches| - 1], batch))
  }

  /** The next candidate fits, or is the first. */
  lemma Extend(l: Limits, batches: seq<seq<BatchCandidate>>, batch: seq<BatchCandidate>, consumed: seq<BatchCandidate>, c: BatchCandidate)
    requires Cut(l, batches, batch, consumed)
    requires batch == [] || Within(l, batch + [c])
    ensures Cut(l, batches, batch + [c], consumed + [c])
  {
    assert Flatten(batches) + (batch + [c]) == Flatten(batches) + batch + [c];
    if batches != [] { assert (batch + [c])[0] == batch[0]; }
  }

  /** The next candidate does not fit: the open batch is finished. */
  lemma StartNext(l: Limits, batches: seq<seq<BatchCandidate>>, batch: seq<BatchCandidate>, consumed: seq<BatchCandidate>, c: BatchCandidate)
    requires Cut(l, batches, batch, consumed) && batch != [] && !Within(l, batch + [c])
    ensures Cut(l, batches + [batch], [c], consumed + [c])
  {
    FlattenAppend(batches, batch);
    CloseBatch(l, batches, batch);
    assert [c][0] == c;
  }

  lemma CloseBatch(l: Limits, batches: seq<seq<BatchCandidate>>, batch: seq<BatchCandidate>)
    requires Finished(l, batches) && GoodBatch(l, batch)
    requires batches != [] ==> Overflows(l, batches[|batches| - 1], batch)
    ensures Finished(l, batches + [batch])
  {
    assert (batches + [batch])[..|batches|] == batches;
  }

  lemma {:induction false} FinishedMeans(l: Limits, batches: seq<seq<BatchCandidate>>)
    requires Finished(l, batches)
    ensures forall b :: b in batches ==> GoodBatch(l, b)
    ensures ClosedOnlyWhenFull(l, batches)
  {
    if batches != [] {
      FinishedMeans(l, batches[..|batches| - 1]);
      assert batches == batches[..|batches| - 1] + [batches[|batches| - 1]];
    }
  }

  /** The next image would take the open batch over a limit. */
  predicate Exceeds(l: Limits, batch: seq<BatchCandidate>, totalBytes: nat, totalPixels: nat, c: BatchCandidate) {
    batch != [] &&
    (|batch| + 1 > l.maxImages || totalBytes + Bytes(c.receipts) > l.maxBytes
     || totalPixels + Pixels(c.receipts) > l.maxPixels)
  }

  ghost predicate Standing(l: Limits, batches: seq<seq<BatchCandidate>>, batch: seq<BatchCandidate>,
                           totalBytes: nat, totalPixels: nat, consumed: seq<BatchCandidate>)
  {
    Cut(l, batches, batch, consumed) && totalBytes == TotalBytes(batch) && totalPixels == TotalPixels(batch)
  }

  lemma Place(l: Limits, batches: seq<seq<BatchCandidate>>, batch: seq<BatchCandidate>,
              totalBytes: nat, totalPixels: nat, consumed: seq<BatchCandidate>, c: BatchCandidate)
    requires Standing(l, batches, batch, totalBytes, totalPixels, consumed)
    ensures Exceeds(l, batch, totalBytes, totalPixels, c) ==>
              Standing(l, batches + [batch], [c], Bytes(c.receipts), Pixels(c.receipts), consumed + [c])
    ensures !Exceeds(l, batch, totalBytes, totalPixels, c) ==>
              Standing(l, batches, batch + [c], totalBytes + Bytes(c.receipts), totalPixels + Pixels(c.receipts),
                       consumed + [c])
  {
    TotalsAppend(batch, c);
    if Exceeds(l, batch, totalBytes, totalPixels, c) {
      TotalsAppend([], c);
      assert [] + [c] == [c];
      StartNext(l, batches, batch, consumed, c);
    } else {
      Extend(l, batches, batch, consumed, c);
    }
  }

  /** At the end the open batch, if there is one, is closed too. */
  lemma Close(l: Limits, batches: seq<seq<BatchCandidate>>, batch: seq<BatchCandidate>, consumed: seq<BatchCandidate>)
    requires Cut(l, batches, batch, consumed)
    ensures var all := if batch != [] then batches + [batch] else batches;
            && Flatten(all) == consumed && (forall b :: b in all ==> GoodBatch(l, b)) && ClosedOnlyWhenFull(l, all)
  {
    if batch != [] {
      FlattenAppend(batches, batch);
      CloseBatch(l, batches, batch);
      FinishedMeans(l, batches + [batch]);
    } else {
      FinishedMeans(l, batches);
    }
  }

  /**
   Cut the candidates into batches. The batches concatenate back to the input;
   none is empty; each with two or more images respects all three limits; and a
   batch is closed only when the next image would exceed one.
   */
  method BuildBatches(candidates: seq<BatchCandidate>, l: Limits) returns (batches: seq<seq<BatchCandidate>>)
    ensures Flatten(batches) == candidates
    ensures forall b :: b in batches ==> GoodBatch(l, b)
    ensures ClosedOnlyWhenFull(l, batches)
  {
    batches := [];
    var batch: seq<BatchCandidate> := [];
    var totalBytes, totalPixels := 0, 0;
    for i := 0 to |candidates|
      invariant totalBytes >= 0 && totalPixels >= 0
      invariant Standing(l, batches, batch, totalBytes, totalPixels, candidates[..i])
    {
      var c := candidates[i];
      Place(l, batches, batch, totalBytes, totalPixels, candidates[..i], c);
      assert candidates[..i + 1] == candidates[..i] + [c];
      if Exceeds(l, batch, totalBytes, totalPixels, c) {
        batches := batches + [batch];
        batch, totalBytes, totalPixels := [c], Bytes(c.receipts), Pixels(c.receipts);
      } else {
        batch := batch + [c];
        totalBytes, totalPixels := totalBytes + Bytes(c.receipts), totalPixels + Pixels(c.receipts);
      }
    }
    assert candidates[..|candidates|] == candidates;
    Close(l, batches, batch, candidates);
    if batch != [] {
      batches := batches + [batch];
    }
  }
}
