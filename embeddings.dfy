/** `EmbeddingClient`: `embed_text` refuses blank text before calling the
    provider; `embed_batch` cuts its input into consecutive `batch_size`
    slices, drops blank strings from each, sends every non-empty slice to
    the provider, puts the returned items back in `index` order and
    concatenates their vectors. Both calls sit inside the three-attempt
    retry decorator. The provider is a function from the list of input
    strings to the response items, or to an error. */
module Embeddings {
  import opened Common
  import opened Text
  import opened Retry
  import opened Records

  /** One item of `response.data`: its position in the request and its
      vector. */
  datatype EmbeddingItem = EmbeddingItem(index: nat, embedding: Vector)

  /** One attempt's view of `client.embeddings.create(input=...)`. */
  type Provider = seq<string> -> Result<seq<EmbeddingItem>, string>

  datatype EmbedError =
    | EmptyText              // `ValueError("Cannot embed empty text")`
    | InvalidBatchSize       // `range(0, n, 0)` raises `ValueError`
    | NoData                 // `response.data[0]` on an empty list
    | ProviderError(message: string)

  // ---------------------------------------------------------------------
  // `[t for t in texts[lo:hi] if t.strip()]`

  /** The non-blank strings among `texts[lo..hi]`, in order. */
  function NonBlankBetween(texts: seq<string>, lo: nat, hi: nat): (r: seq<string>)
    requires lo <= hi <= |texts|
    ensures |r| <= hi - lo
    decreases hi - lo
  {
    if lo == hi then []
    else (if IsBlank(texts[lo]) then [] else [texts[lo]]) + NonBlankBetween(texts, lo + 1, hi)
  }

  /** `[t for t in texts if t.strip()]`. */
  function NonBlank(texts: seq<string>): seq<string> {
    NonBlankBetween(texts, 0, |texts|)
  }

  /** Filtering a range is filtering its two halves. */
  lemma {:induction false} NonBlankSplit(texts: seq<string>, lo: nat, mid: nat, hi: nat)
    requires lo <= mid <= hi <= |texts|
    ensures NonBlankBetween(texts, lo, hi) == NonBlankBetween(texts, lo, mid) + NonBlankBetween(texts, mid, hi)
    decreases mid - lo
  {
    if lo < mid {
      NonBlankSplit(texts, lo + 1, mid, hi);
      var h := if IsBlank(texts[lo]) then [] else [texts[lo]];
      assert h + (NonBlankBetween(texts, lo + 1, mid) + NonBlankBetween(texts, mid, hi))
          == (h + NonBlankBetween(texts, lo + 1, mid)) + NonBlankBetween(texts, mid, hi);
    }
  }

  /** The filter keeps exactly the non-blank strings of the range. */
  lemma {:induction false} NonBlankMembers(texts: seq<string>, lo: nat, hi: nat)
    requires lo <= hi <= |texts|
    ensures forall t :: t in NonBlankBetween(texts, lo, hi) <==>
                        !IsBlank(t) && exists j :: lo <= j < hi && texts[j] == t
    decreases hi - lo
  {
    if lo < hi {
      NonBlankMembers(texts, lo + 1, hi);
    }
  }

  // ---------------------------------------------------------------------
  // `sorted(response.data, key=lambda x: x.index)`

  /** The items are in non-decreasing order of `index`. */
  predicate SortedByIndex(s: seq<EmbeddingItem>) {
    forall i, j :: 0 <= i < j < |s| ==> s[i].index <= s[j].index
  }

  /** Insertion of `x` after the last item whose index is not larger:
      items with equal indices keep their order, as Python's stable sort
      does. */
  function InsertByIndex(x: EmbeddingItem, s: seq<EmbeddingItem>): (r: seq<EmbeddingItem>)
    ensures |r| == |s| + 1
  {
    if s == [] || s[|s| - 1].index <= x.index then s + [x]
    else InsertByIndex(x, s[..|s| - 1]) + [s[|s| - 1]]
  }

  lemma {:induction false} InsertMultiset(x: EmbeddingItem, s: seq<EmbeddingItem>)
    ensures multiset(InsertByIndex(x, s)) == multiset(s) + multiset{x}
    decreases |s|
  {
    if s != [] && s[|s| - 1].index > x.index {
      var init := s[..|s| - 1];
      InsertMultiset(x, init);
      assert s == init + [s[|s| - 1]];
    }
  }

  lemma {:induction false} InsertKeepsSorted(x: EmbeddingItem, s: seq<EmbeddingItem>)
    requires SortedByIndex(s)
    ensures SortedByIndex(InsertByIndex(x, s))
    decreases |s|
  {
    if s != [] && s[|s| - 1].index > x.index {
      var init := s[..|s| - 1];
      var last := s[|s| - 1];
      var front := InsertByIndex(x, init);
      InsertKeepsSorted(x, init);
      InsertMultiset(x, init);
      forall k | 0 <= k < |front|
        ensures front[k].index <= last.index
      {
        assert front[k] in multiset(front);
        if front[k] != x {
          assert front[k] in multiset(init);
          var j :| 0 <= j < |init| && init[j] == front[k];
          assert s[j] == front[k];
        }
      }
      var r := front + [last];
      forall i, j | 0 <= i < j < |r|
        ensures r[i].index <= r[j].index
      {
        assert r[i] == front[i];
        if j < |front| {
          assert r[j] == front[j];
        }
      }
    }
  }

  /** Python's `sorted` keyed on `index`, as an insertion sort. */
  function SortByIndex(s: seq<EmbeddingItem>): (r: seq<EmbeddingItem>)
    ensures |r| == |s|
  {
    if s == [] then [] else InsertByIndex(s[|s| - 1], SortByIndex(s[..|s| - 1]))
  }

  /** The sort only reorders. */
  lemma {:induction false} SortIsPermutation(s: seq<EmbeddingItem>)
    ensures multiset(SortByIndex(s)) == multiset(s)
    decreases |s|
  {
    if s != [] {
      var init := s[..|s| - 1];
      SortIsPermutation(init);
      InsertMultiset(s[|s| - 1], SortByIndex(init));
      assert s == init + [s[|s| - 1]];
    }
  }

  lemma {:induction false} SortIsSorted(s: seq<EmbeddingItem>)
    ensures SortedByIndex(SortByIndex(s))
    decreases |s|
  {
    if s != [] {
      SortIsSorted(s[..|s| - 1]);
      InsertKeepsSorted(s[|s| - 1], SortByIndex(s[..|s| - 1]));
    }
  }

  /** `[item.embedding for item in sorted_data]`. */
  function BatchEmbeddings(resp: seq<EmbeddingItem>): (r: seq<Vector>)
    ensures |r| == |resp|
  {
    var sorted := SortByIndex(resp);
    seq(|sorted|, k requires 0 <= k < |sorted| => sorted[k].embedding)
  }

  /** `[f(t) for t in ts]`. */
  function MapVectors(f: string -> Vector, ts: seq<string>): (r: seq<Vector>)
    ensures |r| == |ts|
    ensures forall k :: 0 <= k < |ts| ==> r[k] == f(ts[k])
  {
    seq(|ts|, k requires 0 <= k < |ts| => f(ts[k]))
  }

  lemma MapVectorsAppend(f: string -> Vector, a: seq<string>, b: seq<string>)
    ensures MapVectors(f, a + b) == MapVectors(f, a) + MapVectors(f, b)
  {
  }

  /** The items that embed `batch` with `f`, in input order: item `k`
      has index `k` and vector `f(batch[k])`. */
  function Canonical(batch: seq<string>, f: string -> Vector): (r: seq<EmbeddingItem>)
    ensures |r| == |batch|
    ensures forall k :: 0 <= k < |r| ==> r[k] == EmbeddingItem(k, f(batch[k]))
  {
    seq(|batch|, k requires 0 <= k < |batch| => EmbeddingItem(k, f(batch[k])))
  }

  /** A response that embeds `batch` with `f`, its items in any order. */
  predicate FaithfulResponse(resp: seq<EmbeddingItem>, batch: seq<string>, f: string -> Vector) {
    multiset(resp) == multiset(Canonical(batch, f))
  }

  /** The last item of a sorted permutation of the canonical items is the
      canonical last item. */
  lemma SortedCanonicalLast(s: seq<EmbeddingItem>, c: seq<EmbeddingItem>, batch: seq<string>, f: string -> Vector)
    requires c == Canonical(batch, f) && c != []
    requires SortedByIndex(s) && multiset(s) == multiset(c)
    ensures |s| == |c| && s[|s| - 1] == c[|c| - 1]
  {
    assert |s| == |multiset(s)| == |c|;
    var n := |c|;
    assert c[n - 1] in multiset(s);
    var j :| 0 <= j < n && s[j] == c[n - 1];
    assert s[n - 1].index >= n - 1;
    assert s[n - 1] in multiset(c);
    var m :| 0 <= m < n && c[m] == s[n - 1];
  }

  /** Removing a shared last element keeps two lists permutations of
      each other. */
  lemma MultisetDropLast<T>(s: seq<T>, c: seq<T>)
    requires |s| == |c| > 0 && s[|s| - 1] == c[|c| - 1] && multiset(s) == multiset(c)
    ensures multiset(s[..|s| - 1]) == multiset(c[..|c| - 1])
  {
    var n := |s|;
    assert s == s[..n - 1] + [s[n - 1]];
    assert c == c[..n - 1] + [c[n - 1]];
    calc {
      multiset(s[..n - 1]);
      multiset(s) - multiset{s[n - 1]};
      multiset(c) - multiset{c[n - 1]};
      multiset(c[..n - 1]);
    }
  }

  lemma SortedPrefix(s: seq<EmbeddingItem>, n: nat)
    requires SortedByIndex(s) && n <= |s|
    ensures SortedByIndex(s[..n])
  {
  }

  /** Sorting by index is the only order a permutation of the canonical
      items can be in. */
  lemma {:induction false} SortedCanonical(s: seq<EmbeddingItem>, batch: seq<string>, f: string -> Vector)
    requires SortedByIndex(s) && multiset(s) == multiset(Canonical(batch, f))
    ensures s == Canonical(batch, f)
    decreases |batch|
  {
    var c := Canonical(batch, f);
    if batch == [] {
      assert |s| == |multiset(s)| == 0;
    } else {
      SortedCanonicalLast(s, c, batch, f);
      var n := |batch|;
      var front := batch[..n - 1];
      assert Canonical(front, f) == c[..n - 1];
      MultisetDropLast(s, c);
      SortedPrefix(s, n - 1);
      SortedCanonical(s[..n - 1], front, f);
      assert s == s[..n - 1] + [s[n - 1]];
      assert c == c[..n - 1] + [c[n - 1]];
    }
  }

  /** A faithful response, put back in index order, gives the vectors of
      the batch in input order, whatever order the items came in. */
  lemma FaithfulBatchEmbeddings(resp: seq<EmbeddingItem>, batch: seq<string>, f: string -> Vector)
    requires FaithfulResponse(resp, batch, f)
    ensures BatchEmbeddings(resp) == MapVectors(f, batch)
  {
    SortIsPermutation(resp);
    SortIsSorted(resp);
    SortedCanonical(SortByIndex(resp), batch, f);
  }
  // ---------------------------------------------------------------------
  // The batching loop of `embed_batch`

  /** `[t for t in texts[i:i + size] if t.strip()]`. */
  function BatchAt(texts: seq<string>, size: nat, i: nat): seq<string>
    requires i <= |texts|
  {
    NonBlankBetween(texts, i, Min(i + size, |texts|))
  }

  /** `all_embeddings.extend(...)` in front of a later outcome. */
  function Prepend(done: seq<Vector>, r: Result<seq<Vector>, EmbedError>): Result<seq<Vector>, EmbedError> {
    if r.Failure? then r else Success(done + r.value)
  }

  /** What the loop from offset `i` on contributes: the vectors of every
      non-empty batch in turn, or the error of the first provider call
      that raises. */
  function RunFrom(texts: seq<string>, size: nat, api: Provider, i: nat): Result<seq<Vector>, EmbedError>
    requires size > 0
    decreases |texts| - i
  {
    if i >= |texts| then Success([])
    else
      var batch := BatchAt(texts, size, i);
      if batch == [] then RunFrom(texts, size, api, i + size)
      else
        match api(batch)
        case Failure(e) => Failure(ProviderError(e))
        case Success(resp) => Prepend(BatchEmbeddings(resp), RunFrom(texts, size, api, i + size))
  }

  /** The inputs of the provider calls the loop makes from offset `i` on,
      up to and including the first one that raises. */
  function CallsFrom(texts: seq<string>, size: nat, api: Provider, i: nat): seq<seq<string>>
    requires size > 0
    decreases |texts| - i
  {
    if i >= |texts| then []
    else
      var batch := BatchAt(texts, size, i);
      if batch == [] then CallsFrom(texts, size, api, i + size)
      else if api(batch).Failure? then [batch]
      else [batch] + CallsFrom(texts, size, api, i + size)
  }

  /** The non-empty batches from offset `i` on, whatever the provider
      does. */
  function BatchesFrom(texts: seq<string>, size: nat, i: nat): seq<seq<string>>
    requires size > 0
    decreases |texts| - i
  {
    if i >= |texts| then []
    else
      var batch := BatchAt(texts, size, i);
      (if batch == [] then [] else [batch]) + BatchesFrom(texts, size, i + size)
  }

  /** One attempt of `embed_batch`: empty input returns at once; a zero
      step makes `range` raise; a negative step gives an empty range. */
  function BatchAttempt(texts: seq<string>, batchSize: int, api: Provider): Result<seq<Vector>, EmbedError> {
    if texts == [] then Success([])
    else if batchSize == 0 then Failure(InvalidBatchSize)
    else if batchSize < 0 then Success([])
    else RunFrom(texts, batchSize, api, 0)
  }

  /** The provider calls of one attempt. */
  function AttemptCalls(texts: seq<string>, batchSize: int, api: Provider): seq<seq<string>> {
    if texts == [] || batchSize <= 0 then [] else CallsFrom(texts, batchSize, api, 0)
  }

  lemma PrependNothing(r: Result<seq<Vector>, EmbedError>)
    ensures Prepend([], r) == r
  {
    if r.Success? {
      assert [] + r.value == r.value;
    }
  }

  lemma PrependPrepend(a: seq<Vector>, b: seq<Vector>, r: Result<seq<Vector>, EmbedError>)
    ensures Prepend(a, Prepend(b, r)) == Prepend(a + b, r)
  {
    if r.Success? {
      assert a + (b + r.value) == (a + b) + r.value;
    }
  }

  /** One attempt of `embed_batch`, as the loop the source runs: the result
      and the provider calls are those of the specification above. */
  method EmbedBatchOnce(texts: seq<string>, batchSize: int, api: Provider)
    returns (result: Result<seq<Vector>, EmbedError>, calls: seq<seq<string>>)
    ensures result == BatchAttempt(texts, batchSize, api)
    ensures calls == AttemptCalls(texts, batchSize, api)
  {
    calls := [];
    if texts == [] {
      return Success([]), calls;
    }
    if batchSize == 0 {
      return Failure(InvalidBatchSize), calls;
    }
    if batchSize < 0 {
      return Success([]), calls;
    }
    var allEmbeddings: seq<Vector> := [];
    var i := 0;
    PrependNothing(RunFrom(texts, batchSize, api, 0));
    assert [] + CallsFrom(texts, batchSize, api, 0) == CallsFrom(texts, batchSize, api, 0);
    while i < |texts|
      invariant Prepend(allEmbeddings, RunFrom(texts, batchSize, api, i)) == RunFrom(texts, batchSize, api, 0)
      invariant calls + CallsFrom(texts, batchSize, api, i) == CallsFrom(texts, batchSize, api, 0)
      decreases |texts| - i
    {
      var batch := BatchAt(texts, batchSize, i);
      if batch != [] {
        var response := api(batch);
        if response.Failure? {
          return Failure(ProviderError(response.error)), calls + [batch];
        }
        var vectors := BatchEmbeddings(response.value);
        PrependPrepend(allEmbeddings, vectors, RunFrom(texts, batchSize, api, i + batchSize));
        assert (calls + [batch]) + CallsFrom(texts, batchSize, api, i + batchSize)
            == calls + ([batch] + CallsFrom(texts, batchSize, api, i + batchSize));
        allEmbeddings := allEmbeddings + vectors;
        calls := calls + [batch];
      }
      i := i + batchSize;
    }
    assert calls + [] == calls;
    assert allEmbeddings + [] == allEmbeddings;
    result := Success(allEmbeddings);
  }

  /** `embed_batch` with its retry decorator: attempt `a` talks to
      `api(a)`, and each attempt starts again from the first batch. */
  function EmbedBatch(texts: seq<string>, batchSize: int, api: nat -> Provider): Result<seq<Vector>, RetryError<EmbedError>> {
    Retried((a: nat) => BatchAttempt(texts, batchSize, api(a)))
  }

  /** One attempt of `embed_text`: the blank check comes before the call,
      and the vector is that of the first response item. */
  function EmbedTextOnce(text: string, api: Provider): Result<Vector, EmbedError> {
    if IsBlank(text) then Failure(EmptyText)
    else
      match api([text])
      case Failure(e) => Failure(ProviderError(e))
      case Success(data) => if data == [] then Failure(NoData) else Success(data[0].embedding)
  }

  /** `embed_text` with its retry decorator. */
  function EmbedText(text: string, api: nat -> Provider): Result<Vector, RetryError<EmbedError>> {
    Retried((a: nat) => EmbedTextOnce(text, api(a)))
  }

  // ---------------------------------------------------------------------
  // Properties

  /** Blank text raises `EmptyText` on every attempt whatever the provider
      does, so the provider is never consulted and the caller sees a
      `RetryError` over `EmptyText`. */
  lemma EmbedTextBlankFails(text: string, api: nat -> Provider)
    requires IsBlank(text)
    ensures EmbedText(text, api) == Failure(RetryError(EmptyText))
  {
    var run := (a: nat) => EmbedTextOnce(text, api(a));
    forall a: nat
      ensures run(a) == Failure(EmptyText)
    {
      assert run(a) == EmbedTextOnce(text, api(a));
    }
    RetriedConstantFailure(run, EmptyText);
  }

  /** A zero batch size on non-empty input raises on every attempt, so
      the caller sees a `RetryError` over `InvalidBatchSize`. */
  lemma EmbedBatchZeroSize(texts: seq<string>, api: nat -> Provider)
    requires texts != []
    ensures EmbedBatch(texts, 0, api) == Failure(RetryError(InvalidBatchSize))
  {
    var run := (a: nat) => BatchAttempt(texts, 0, api(a));
    forall a: nat
      ensures run(a) == Failure(InvalidBatchSize)
    {
      assert run(a) == BatchAttempt(texts, 0, api(a));
    }
    RetriedConstantFailure(run, InvalidBatchSize);
  }

  /** `embed_batch([])` returns an empty list on its first attempt,
      calling the provider not at all. */
  lemma EmbedBatchEmpty(batchSize: int, api: nat -> Provider)
    ensures EmbedBatch([], batchSize, api) == Success([])
    ensures AttemptCalls([], batchSize, api(0)) == []
  {
    var run := (a: nat) => BatchAttempt([], batchSize, api(a));
    assert BatchAttempt([], batchSize, api(0)) == Success([]);
    assert run(0) == BatchAttempt([], batchSize, api(0));
    RetriedFirstSuccess(run);
  }

  /** Concatenation of a list of batches. */
  function Flatten(bs: seq<seq<string>>): seq<string> {
    if bs == [] then [] else bs[0] + Flatten(bs[1..])
  }

  lemma FlattenCons(b: seq<string>, bs: seq<seq<string>>)
    ensures Flatten([b] + bs) == b + Flatten(bs)
  {
    assert ([b] + bs)[1..] == bs;
  }

  /** The batches, joined, are the non-blank texts from offset `i` on, in
      input order: no text is sent twice and none is lost. */
  lemma {:induction false} BatchesFlatten(texts: seq<string>, size: nat, i: nat)
    requires size > 0 && i <= |texts|
    ensures Flatten(BatchesFrom(texts, size, i)) == NonBlankBetween(texts, i, |texts|)
    decreases |texts| - i
  {
    if i < |texts| {
      var j := Min(i + size, |texts|);
      var batch := BatchAt(texts, size, i);
      var rest := BatchesFrom(texts, size, i + size);
      NonBlankSplit(texts, i, j, |texts|);
      if i + size < |texts| {
        BatchesFlatten(texts, size, i + size);
      } else {
        assert rest == [];
      }
      if batch == [] {
        assert BatchesFrom(texts, size, i) == rest;
        assert batch + NonBlankBetween(texts, j, |texts|) == NonBlankBetween(texts, j, |texts|);
      } else {
        FlattenCons(batch, rest);
      }
    }
  }

  /** No string of `b` is blank. */
  predicate AllNonBlank(b: seq<string>) {
    forall m :: 0 <= m < |b| ==> !IsBlank(b[m])
  }

  lemma {:induction false} NonBlankBetweenAll(texts: seq<string>, lo: nat, hi: nat)
    requires lo <= hi <= |texts|
    ensures AllNonBlank(NonBlankBetween(texts, lo, hi))
    decreases hi - lo
  {
    if lo < hi {
      NonBlankBetweenAll(texts, lo + 1, hi);
    }
  }

  /** Each batch holds between one and `size` texts, none of them
      blank. */
  predicate BatchesWithin(bs: seq<seq<string>>, size: nat) {
    forall k :: 0 <= k < |bs| ==> 0 < |bs[k]| <= size && AllNonBlank(bs[k])
  }

  /** Every batch sent holds between one and `size` texts, none of them
      blank. */
  lemma {:induction false} BatchesBounded(texts: seq<string>, size: nat, i: nat)
    requires size > 0
    ensures BatchesWithin(BatchesFrom(texts, size, i), size)
    decreases |texts| - i
  {
    if i < |texts| {
      BatchesBounded(texts, size, i + size);
      var batch := BatchAt(texts, size, i);
      NonBlankBetweenAll(texts, i, Min(i + size, |texts|));
      var rest := BatchesFrom(texts, size, i + size);
      var bs := BatchesFrom(texts, size, i);
      if batch != [] {
        assert bs == [batch] + rest;
        forall k | 0 <= k < |bs|
          ensures 0 < |bs[k]| <= size && AllNonBlank(bs[k])
        {
          if k > 0 {
            assert bs[k] == rest[k - 1];
          }
        }
      } else {
        assert bs == rest;
      }
    }
  }

  /** The provider embeds every non-empty input faithfully with `f`. */
  ghost predicate FaithfulProvider(api: Provider, f: string -> Vector) {
    forall b :: b != [] ==> api(b).Success? && FaithfulResponse(api(b).value, b, f)
  }

  lemma {:induction false} RunFromFaithful(texts: seq<string>, size: nat, api: Provider, f: string -> Vector, i: nat)
    requires size > 0 && i <= |texts| && FaithfulProvider(api, f)
    ensures RunFrom(texts, size, api, i) == Success(MapVectors(f, NonBlankBetween(texts, i, |texts|)))
    decreases |texts| - i
  {
    if i < |texts| {
      var j := Min(i + size, |texts|);
      var batch := BatchAt(texts, size, i);
      NonBlankSplit(texts, i, j, |texts|);
      if i + size < |texts| {
        RunFromFaithful(texts, size, api, f, i + size);
      }
      var rest := NonBlankBetween(texts, j, |texts|);
      assert RunFrom(texts, size, api, i + size) == Success(MapVectors(f, rest));
      if batch != [] {
        FaithfulBatchEmbeddings(api(batch).value, batch, f);
        MapVectorsAppend(f, batch, rest);
      } else {
        assert batch + rest == rest;
      }
    }
  }

  /** With a faithful provider and a positive batch size the result holds
      the vector of every non-blank input, in input order: its length is
      the number of non-blank texts, not `len(texts)`. */
  lemma EmbedBatchFaithful(texts: seq<string>, batchSize: int, api: Provider, f: string -> Vector)
    requires batchSize > 0 && FaithfulProvider(api, f)
    ensures BatchAttempt(texts, batchSize, api) == Success(MapVectors(f, NonBlank(texts)))
  {
    RunFromFaithful(texts, batchSize, api, f, 0);
  }

  /** When the loop finishes, every batch was sent, in order. */
  lemma {:induction false} CallsOnSuccess(texts: seq<string>, size: nat, api: Provider, i: nat)
    requires size > 0 && RunFrom(texts, size, api, i).Success?
    ensures CallsFrom(texts, size, api, i) == BatchesFrom(texts, size, i)
    decreases |texts| - i
  {
    if i < |texts| {
      CallsOnSuccess(texts, size, api, i + size);
      var batch := BatchAt(texts, size, i);
      if batch == [] {
        assert BatchesFrom(texts, size, i) == [] + BatchesFrom(texts, size, i + size);
      }
    }
  }

  /** The calls are the batches in order, up to where the loop stops. */
  lemma {:induction false} CallsArePrefix(texts: seq<string>, size: nat, api: Provider, i: nat)
    requires size > 0
    ensures CallsFrom(texts, size, api, i) <= BatchesFrom(texts, size, i)
    decreases |texts| - i
  {
    if i < |texts| {
      CallsArePrefix(texts, size, api, i + size);
      if BatchAt(texts, size, i) == [] {
        assert BatchesFrom(texts, size, i) == BatchesFrom(texts, size, i + size);
      }
    }
  }

  /** Every call of `calls` but the last returned. */
  predicate ReturnedBeforeLast(api: Provider, calls: seq<seq<string>>) {
    forall k :: 0 <= k < |calls| - 1 ==> api(calls[k]).Success?
  }

  /** Every call but the last returned. */
  lemma {:induction false} CallsReturnBeforeLast(texts: seq<string>, size: nat, api: Provider, i: nat)
    requires size > 0
    ensures ReturnedBeforeLast(api, CallsFrom(texts, size, api, i))
    decreases |texts| - i
  {
    if i < |texts| {
      CallsReturnBeforeLast(texts, size, api, i + size);
      var batch := BatchAt(texts, size, i);
      if batch != [] && api(batch).Success? {
        var rest := CallsFrom(texts, size, api, i + size);
        var calls := [batch] + rest;
        assert calls == CallsFrom(texts, size, api, i);
        forall k | 0 <= k < |calls| - 1
          ensures api(calls[k]).Success?
        {
          if k > 0 {
            assert calls[k] == rest[k - 1];
          } else {
            assert calls[0] == batch;
          }
        }
      }
    }
  }

  /** The last call of `calls` raised, and `outcome` is its error. */
  predicate RaisedAtLast(api: Provider, calls: seq<seq<string>>, outcome: Result<seq<Vector>, EmbedError>) {
    && calls != []
    && api(calls[|calls| - 1]).Failure?
    && outcome == Failure(ProviderError(api(calls[|calls| - 1]).error))
  }

  /** When the loop raises, the last call is the one that raised, and the
      error is that call's. */
  lemma {:induction false} CallsOnFailure(texts: seq<string>, size: nat, api: Provider, i: nat)
    requires size > 0 && RunFrom(texts, size, api, i).Failure?
    ensures RaisedAtLast(api, CallsFrom(texts, size, api, i), RunFrom(texts, size, api, i))
    decreases |texts| - i
  {
    var batch := BatchAt(texts, size, i);
    if batch == [] || api(batch).Success? {
      CallsOnFailure(texts, size, api, i + size);
      if batch != [] {
        var rest := CallsFrom(texts, size, api, i + size);
        assert ([batch] + rest)[|rest|] == rest[|rest| - 1];
      }
    }
  }

  /** The retry wraps the whole method: when the first attempt fails and
      the second succeeds, the result is the second attempt's, and that
      attempt sends every batch again from the first. */
  lemma RetryResendsEveryBatch(texts: seq<string>, batchSize: int, api: nat -> Provider)
    requires batchSize > 0
    requires BatchAttempt(texts, batchSize, api(0)).Failure?
    requires BatchAttempt(texts, batchSize, api(1)).Success?
    ensures EmbedBatch(texts, batchSize, api) == Success(BatchAttempt(texts, batchSize, api(1)).value)
    ensures texts != [] ==> AttemptCalls(texts, batchSize, api(1)) == BatchesFrom(texts, batchSize, 0)
  {
    var run := (a: nat) => BatchAttempt(texts, batchSize, api(a));
    assert run(0).Failure? && run(1).Success?;
    if texts != [] {
      CallsOnSuccess(texts, batchSize, api(1), 0);
    }
  }
}
