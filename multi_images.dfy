/**
 * `MultiImagesInput.combine`: collect the images wired to the slots
 * `image_1` .. `image_<inputcount>`, check that there are between 2 and 30
 * of them, and batch them together in slot order.
 *
 * A keyword argument `image_i` is the entry for key `i` of `slots`; its value
 * is `None` or an image. ComfyUI's `ImageBatch.batch` is external and is the
 * parameter `batch`: it is called with the running result (which is `None`
 * only when the first collected slot held `None`) and the next image, and it
 * returns the batched image or `Failure` with the text of the exception it
 * raised.
 */
module MultiImages {
  import opened Common
  import Text

  const MinImages: nat := 2
  const MaxImages: nat := 30

  /**
   * The two `ValueError`s that combine raises, with the count they report,
   * and an exception raised by `ImageBatch.batch`, with its text.
   */
  datatype CombineError = TooFew(count: nat) | TooMany(count: nat) | BatchFailed(reason: string)

  /** The text of the 30-image `ValueError`; `process` raises the same one. */
  function TooManyImagesMessage(n: nat): string {
    "Pixtral Large supports up to 30 images. " + Text.NatToString(n) + " provided."
  }

  function CombineErrorMessage(e: CombineError): (m: string)
    ensures e.BatchFailed? ==> m == e.reason
    ensures e.TooMany? ==> m == TooManyImagesMessage(e.count)
  {
    match e
    case TooFew(n) => "At least 2 images are required. Only " + Text.NatToString(n) + " provided."
    case TooMany(n) => TooManyImagesMessage(n)
    case BatchFailed(m) => m
  }

  predicate Increasing(ks: seq<nat>) {
    forall a, b :: 0 <= a < b < |ks| ==> ks[a] < ks[b]
  }

  /** The slot numbers i, 1 <= i <= inputcount, whose keyword `image_i` was passed, in ascending order. */
  function PresentSlots<I>(inputcount: int, slots: map<nat, Option<I>>): (ks: seq<nat>)
    ensures Increasing(ks)
    ensures forall j :: 0 <= j < |ks| ==> 1 <= ks[j] <= inputcount && ks[j] in slots
    ensures forall i: nat :: 1 <= i <= inputcount && i in slots ==> i in ks
    decreases inputcount
  {
    if inputcount < 1 then []
    else PresentSlots(inputcount - 1, slots) + (if inputcount in slots then [inputcount] else [])
  }

  /**
   * The list comprehension of line 78: the value of every passed slot
   * `image_i` with i in 1..inputcount, in ascending i. A slot passed as
   * `None` is kept.
   */
  function Collect<I>(inputcount: int, slots: map<nat, Option<I>>): (images: seq<Option<I>>)
    ensures |images| <= if inputcount < 1 then 0 else inputcount
    decreases inputcount
  {
    if inputcount < 1 then []
    else Collect(inputcount - 1, slots) + (if inputcount in slots then [slots[inputcount]] else [])
  }

  /** The collected list holds, in order, the value of each present slot and nothing else. */
  lemma {:induction false} CollectIsPresentSlots<I>(inputcount: int, slots: map<nat, Option<I>>)
    ensures var ks := PresentSlots(inputcount, slots); var images := Collect(inputcount, slots);
      |images| == |ks| && forall j :: 0 <= j < |ks| ==> images[j] == slots[ks[j]]
    decreases inputcount
  {
    if inputcount >= 1 {
      CollectIsPresentSlots(inputcount - 1, slots);
    }
  }

  /**
   * `result` after the loop of lines 86-89 has run over `rest`: every present
   * image is batched on, `None` is skipped, and the first exception from
   * `batch` ends the loop.
   */
  function FoldBatch<I>(first: Option<I>, rest: seq<Option<I>>, batch: (Option<I>, I) -> Result<I, string>)
    : (r: Result<Option<I>, CombineError>)
    ensures r.Failure? ==> r.error.BatchFailed?
    ensures r.Success? ==> (r.value.None? <==> first.None? && forall j :: 0 <= j < |rest| ==> rest[j].None?)
    decreases |rest|
  {
    if rest == [] then Success(first)
    else
      match FoldBatch(first, rest[..|rest| - 1], batch)
      case Failure(e) => Failure(e)
      case Success(acc) =>
        match rest[|rest| - 1]
        case None => Success(acc)
        case Some(x) =>
          match batch(acc, x)
          case Failure(m) => Failure(BatchFailed(m))
          case Success(b) => Success(Some(b))
  }

  /** The node's `combine`: an error naming the count, the exception from batching, or the batched result. */
  method Combine<I>(inputcount: int, slots: map<nat, Option<I>>, batch: (Option<I>, I) -> Result<I, string>)
    returns (r: Result<Option<I>, CombineError>)
    ensures var images := Collect(inputcount, slots);
      && (|images| < MinImages ==> r == Failure(TooFew(|images|)))
      && (|images| > MaxImages ==> r == Failure(TooMany(|images|)))
      && (MinImages <= |images| <= MaxImages ==> r == FoldBatch(images[0], images[1..], batch))
  {
    var images := Collect(inputcount, slots);
    if |images| < MinImages {
      return Failure(TooFew(|images|));
    }
    if |images| > MaxImages {
      return Failure(TooMany(|images|));
    }
    var result := images[0];
    for i := 1 to |images|
      invariant FoldBatch(images[0], images[1..i], batch) == Success(result)
    {
      ghost var done := images[1..i + 1];
      assert done[..|done| - 1] == images[1..i] && done[|done| - 1] == images[i];
      if images[i].Some? {
        var b := batch(result, images[i].value);
        if b.Failure? {
          assert images[1..][..i] == done;
          FoldBatchFailurePersists(images[0], images[1..], i, batch);
          return Failure(BatchFailed(b.error));
        }
        result := Some(b.value);
      }
    }
    assert images[1..|images|] == images[1..];
    return Success(result);
  }

  // ---------------------------------------------------------------------
  // Properties

  /** The present image values of a list, in order. */
  function Present<F>(xs: seq<Option<seq<F>>>): seq<seq<F>>
    decreases |xs|
  {
    if xs == [] then []
    else Present(xs[..|xs| - 1]) + (if xs[|xs| - 1].Some? then [xs[|xs| - 1].value] else [])
  }

  function Concat<F>(xss: seq<seq<F>>): seq<F>
    decreases |xss|
  {
    if xss == [] then [] else Concat(xss[..|xss| - 1]) + xss[|xss| - 1]
  }

  /**
   * With batching as concatenation along the batch axis, the combined
   * batch is the first image followed by every later present image, in
   * slot order.
   */
  lemma {:induction false} FoldIsConcatenation<F>(first: seq<F>, rest: seq<Option<seq<F>>>, batch: (Option<seq<F>>, seq<F>) -> Result<seq<F>, string>)
    requires forall b: seq<F>, y: seq<F> :: batch(Some(b), y) == Success(b + y)
    ensures FoldBatch(Some(first), rest, batch) == Success(Some(first + Concat(Present(rest))))
    decreases |rest|
  {
    if rest == [] {
      assert first + [] == first;
    } else {
      var init := rest[..|rest| - 1];
      FoldIsConcatenation(first, init, batch);
      var last := rest[|rest| - 1];
      if last.Some? {
        var w := Concat(Present(init));
        BatchAppends(batch, first + w, last.value);
        assert FoldBatch(Some(first), rest, batch) == Success(Some(first + w + last.value));
        var ps := Present(init) + [last.value];
        assert Present(rest) == ps;
        assert ps[..|ps| - 1] == Present(init);
        assert Concat(ps) == Concat(Present(init)) + last.value;
        assert first + Concat(Present(init)) + last.value == first + (Concat(Present(init)) + last.value);
      } else {
        assert Present(rest) == Present(init) + [];
        assert Present(init) + [] == Present(init);
      }
    }
  }

  lemma BatchAppends<F>(batch: (Option<seq<F>>, seq<F>) -> Result<seq<F>, string>, a: seq<F>, x: seq<F>)
    requires forall b: seq<F>, y: seq<F> :: batch(Some(b), y) == Success(b + y)
    ensures batch(Some(a), x) == Success(a + x)
  {
  }

  /** An exception from `batch` ends the loop: what follows the failing image is never batched. */
  lemma {:induction false} FoldBatchFailurePersists<I>(first: Option<I>, rest: seq<Option<I>>, k: nat, batch: (Option<I>, I) -> Result<I, string>)
    requires k <= |rest|
    requires FoldBatch(first, rest[..k], batch).Failure?
    ensures FoldBatch(first, rest, batch) == FoldBatch(first, rest[..k], batch)
    decreases |rest|
  {
    if k < |rest| {
      var init := rest[..|rest| - 1];
      assert init[..k] == rest[..k];
      FoldBatchFailurePersists(first, init, k, batch);
    } else {
      assert rest[..k] == rest;
    }
  }

  /** If every slot 1..n is passed, exactly n images are collected. */
  lemma {:induction false} AllSlotsCollected<I>(n: nat, slots: map<nat, Option<I>>)
    requires forall i: nat :: 1 <= i <= n ==> i in slots
    ensures |Collect(n, slots)| == n
  {
    if n > 0 {
      AllSlotsCollected(n - 1, slots);
    }
  }

  /** Slots above inputcount are ignored: adding one does not change what is collected. */
  lemma {:induction false} HigherSlotIgnored<I>(inputcount: int, slots: map<nat, Option<I>>, k: nat, v: Option<I>)
    requires k > inputcount
    ensures Collect(inputcount, slots[k := v]) == Collect(inputcount, slots)
    decreases inputcount
  {
    if inputcount >= 1 {
      HigherSlotIgnored(inputcount - 1, slots, k, v);
    }
  }

  /** Slots 1 and 3 passed, slot 2 left out, inputcount 3: two images, slot 1 first. */
  lemma SlotsOneAndThree<I>(a: Option<I>, b: Option<I>)
    ensures Collect(3, map[1 := a, 3 := b]) == [a, b]
  {
    var slots := map[1 := a, 3 := b];
    assert Collect(1, slots) == [a];
    assert Collect(2, slots) == [a];
  }

  /** Both errors report the count as `str()` renders it. */
  lemma CombineErrorNamesCount(e: CombineError)
    ensures !e.BatchFailed? ==> Text.Contains(CombineErrorMessage(e), Text.NatToString(e.count))
  {
    if e.BatchFailed? { return; }
    var m := CombineErrorMessage(e);
    var d := Text.NatToString(e.count);
    var prefix := if e.TooFew? then "At least 2 images are required. Only " else "Pixtral Large supports up to 30 images. ";
    assert m == prefix + d + " provided.";
    assert m[|prefix|..|prefix| + |d|] == d;
    assert Text.OccursAt(m, d, |prefix|);
  }
}
