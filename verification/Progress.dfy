/** The progress of a transcription, as the worker reports it and the API shows it (app/jobs/jdr.py, router.py). */
module Progress {
  import opened Wrappers

  // ----- Percents -----------------------------------------------------------------------

  /** Python's `round()` of `num / den`: to the nearest integer, and to the even one of two. */
  function HalfEven(num: nat, den: nat): nat
    requires den > 0
  {
    var q, r := num / den, num % den;
    if 2 * r < den || (2 * r == den && q % 2 == 0) then q else q + 1
  }

  /** 100 is reserved for a committed transcription. */
  function Percent(done: nat, total: nat): nat
    requires total > 0
  {
    var p := HalfEven(done * 100, total);
    if p < 99 then p else 99
  }

  lemma {:induction false} ProductGrows(x: int, y: int, den: nat)
    ensures x > y ==> x * den >= y * den + den
    decreases x - y
  {
    if x > y {
      assert x * den == (x - 1) * den + den;
      ProductGrows(x - 1, y, den);
    }
  }

  lemma Divided(a: nat, den: nat) returns (q: int, r: int)
    requires den > 0
    ensures q == a / den && r == a % den && 0 <= r < den && a == q * den + r
  {
    q, r := a / den, a % den;
  }

  lemma QuotientGrows(a: nat, b: nat, den: nat)
    requires a <= b && den > 0
    ensures a / den <= b / den
    ensures a / den == b / den ==> a % den <= b % den
  {
    var qa, ra := Divided(a, den);
    var qb, rb := Divided(b, den);
    ProductGrows(qa, qb, den);
  }

  /** The result is a nearest integer, and of two the even one. */
  lemma HalfEvenIsNearest(num: nat, den: nat)
    requires den > 0
    ensures var h := HalfEven(num, den);
            var error := 2 * (h * den - num);
            0 - den <= error <= den && (error == den || error == 0 - den ==> h % 2 == 0)
  {
    var q, r := Divided(num, den);
    assert (q + 1) * den == q * den + den;
  }

  lemma {:induction false} HalfEvenGrows(a: nat, b: nat, den: nat)
    requires a <= b && den > 0
    ensures HalfEven(a, den) <= HalfEven(b, den)
  {
    QuotientGrows(a, b, den);
  }

  lemma {:induction false} PercentGrows(done: nat, more: nat, total: nat)
    requires total > 0 && done <= more
    ensures Percent(done, total) <= Percent(more, total)
  {
    HalfEvenGrows(done * 100, more * 100, total);
  }

  datatype Meta = Meta(phase: Option<string>, percent: Option<int>)

  // ----- The public projection ----------------------------------------------------------

  /** A value the metadata of a job can hold; a missing entry reads as none. */
  datatype PyValue =
    | NoneValue
    | BoolValue(truth: bool)
    | IntValue(number: int)
    | FloatValue(x: real)
    | StrValue(text: string)
    | TupleValue(items: seq<PyValue>)
    | ListValue(items: seq<PyValue>)
    | DictValue(entries: seq<(PyValue, PyValue)>)
    | SetValue(items: seq<PyValue>)

  /** A tuple is hashed by hashing its items, in turn. */
  predicate Hashes(v: PyValue) {
    match v
    case TupleValue(items) => forall i | 0 <= i < |items| :: Hashes(items[i])
    case ListValue(_) => false
    case DictValue(_) => false
    case SetValue(_) => false
    case _ => true
  }

  predicate KnownPhase(text: string) {
    text in {"reducing", "transcribing", "done", "failed"}
  }

  /** Looking a value up in the frozen set of phases hashes it, except that a set is frozen first; None is a TypeError. */
  function LookUp(v: PyValue): Option<bool> {
    if v.SetValue? then Some(false) else if !Hashes(v) then None else Some(v.StrValue? && KnownPhase(v.text))
  }

  function Project(phase: PyValue, percent: PyValue): Option<(Option<string>, Option<int>)> {
    var known := LookUp(phase);
    if known.None? then None
    else Some((if known.value && phase.StrValue? then Some(phase.text) else None,
               if percent.IntValue? && 0 <= percent.number <= 100 then Some(percent.number) else None))
  }

  /** Following a path of tuple positions leads to a container that has no hash. */
  predicate LeadsToContainer(v: PyValue, path: seq<nat>)
    decreases path
  {
    if path == [] then v.ListValue? || v.DictValue? || v.SetValue?
    else v.TupleValue? && path[0] < |v.items| && LeadsToContainer(v.items[path[0]], path[1..])
  }

  lemma {:induction false} ContainerHasNoHash(v: PyValue, path: seq<nat>)
    requires LeadsToContainer(v, path)
    ensures !Hashes(v)
    decreases path
  {
    if path != [] { ContainerHasNoHash(v.items[path[0]], path[1..]); }
  }

  lemma {:induction false} NoHashHasContainer(v: PyValue) returns (path: seq<nat>)
    requires !Hashes(v)
    ensures LeadsToContainer(v, path)
  {
    path := [];
    if v.TupleValue? {
      var i :| 0 <= i < |v.items| && !Hashes(v.items[i]);
      var rest := NoHashHasContainer(v.items[i]);
      path := [i] + rest;
      assert path[1..] == rest;
    }
  }

  /**
   * The route promises that malformed metadata never turns a valid job into an error. It does,
   * for any percent, if and only if the phase is a list or an object, or a tuple that somewhere
   * inside its tuples has a list, an object or a set.
   */
  lemma ProjectionRaisesIff(phase: PyValue, percent: PyValue)
    ensures Project(phase, percent).None? <==> !phase.SetValue? && exists path :: LeadsToContainer(phase, path)
  {
    assert LookUp(phase).None? <==> !phase.SetValue? && !Hashes(phase);
    if Hashes(phase) {
      forall path ensures !LeadsToContainer(phase, path) {
        if LeadsToContainer(phase, path) { ContainerHasNoHash(phase, path); }
      }
    } else {
      var path := NoHashHasContainer(phase);
      assert exists p :: LeadsToContainer(phase, p);
    }
  }

  /** The metadata of the job as a reporter's meta leaves it. */
  function Raw(meta: Meta): (PyValue, PyValue) {
    (if meta.phase.Some? then StrValue(meta.phase.value) else NoneValue,
     if meta.percent.Some? then IntValue(meta.percent.value) else NoneValue)
  }

  /** Readers see the stored meta unchanged. */
  predicate ShownAsStored(meta: Meta) {
    Project(Raw(meta).0, Raw(meta).1) == Some((meta.phase, meta.percent))
  }

  /** That is so exactly when its phase is a known one and its percent a percentage. */
  lemma ProjectionIsFaithful(meta: Meta)
    ensures ShownAsStored(meta)
       <==> && (meta.phase.Some? ==> meta.phase.value in ["reducing", "transcribing", "done", "failed"])
            && (meta.percent.Some? ==> 0 <= meta.percent.value <= 100)
  {}

  // ----- The reporter -------------------------------------------------------------------

  /** What readers of the job saw so far has known phases, and percents that rise within `0..top`. */
  ghost predicate Rising(stored: seq<Meta>, top: int) {
    && (forall i | 0 <= i < |stored| :: stored[i].phase.Some? && KnownPhase(stored[i].phase.value))
    && (forall i | 0 <= i < |stored| :: stored[i].percent.Some? && 0 <= stored[i].percent.value <= top)
    && (forall i, k | 0 <= i < k < |stored| :: stored[i].percent.value <= stored[k].percent.value)
  }

  /** Readers see everything that was stored unchanged. */
  predicate AllShownAsStored(stored: seq<Meta>) {
    forall i | 0 <= i < |stored| :: ShownAsStored(stored[i])
  }

  lemma RisingIsShown(stored: seq<Meta>, top: int)
    requires Rising(stored, top) && top <= 100
    ensures AllShownAsStored(stored)
  {
    forall i | 0 <= i < |stored| ensures ShownAsStored(stored[i]) { ProjectionIsFaithful(stored[i]); }
  }

  lemma RisingSnoc(stored: seq<Meta>, top: int, meta: Meta)
    requires Rising(stored, top) && meta.percent.Some? && 0 <= top <= meta.percent.value
    requires meta.phase.Some? && KnownPhase(meta.phase.value)
    ensures Rising(stored, meta.percent.value) && Rising(stored + [meta], meta.percent.value)
  {}

  /** `meta` lives on the job in the worker; `stored` lists what reached the queue in this attempt. */
  class ProgressReporter {
    var meta: Meta
    var stored: seq<Meta>

    constructor (previous: Meta)
      ensures meta == previous && stored == []
    {
      meta, stored := previous, [];
    }

    /** Saving may fail, which the job does not notice. No percent keeps the last one. */
    method Report(phase: string, percent: Option<int>, saved: bool)
      modifies this
      ensures meta == Meta(Some(phase), if percent.Some? then percent else old(meta).percent)
      ensures stored == if saved then old(stored) + [meta] else old(stored)
    {
      meta := meta.(phase := Some(phase));
      if percent.Some? {
        meta := meta.(percent := percent);
      }
      if saved {
        stored := stored + [meta];
      }
    }
  }

  // ----- Percents of a run of pieces ----------------------------------------------------

  /** The percent shown after `done` of `total` pieces. */
  function Shown(done: nat, total: nat): nat {
    if done == 0 || total == 0 then 0 else Percent(done, total)
  }

  lemma {:induction false} ShownGrows(done: nat, total: nat)
    ensures Shown(done, total) <= Shown(done + 1, total) <= 99
  {
    if done > 0 && total > 0 { PercentGrows(done, done + 1, total); }
  }

  /** `h` is nearest to the percentage that `done` of `total` makes up, and of two such integers the even one. */
  ghost predicate Rounds(h: int, done: nat, total: nat) {
    && 0 - total <= 2 * (h * total - 100 * done) <= total
    && (2 * (h * total - 100 * done) == total || 2 * (h * total - 100 * done) == 0 - total ==> h % 2 == 0)
  }

  /** The percent is the rounded percentage of the pieces done, but never 100. */
  ghost predicate ShowsDone(meta: Meta, done: nat, total: nat) {
    exists h: int :: Rounds(h, done, total) && meta.percent == Some(if h < 99 then h else 99)
  }

  /** The percent shown is the rounded percentage of the pieces done, cut to 99. */
  lemma ShownIsRounded(done: nat, total: nat)
    requires 0 < done <= total
    ensures exists h: int :: Rounds(h, done, total) && Shown(done, total) == if h < 99 then h else 99
    ensures done == total ==> Shown(done, total) == 99
  {
    var h := HalfEven(done * 100, total);
    HalfEvenIsNearest(done * 100, total);
    assert Rounds(h, done, total);
    if done == total { WholeIsHundred(total); }
  }

  lemma WholeIsHundred(total: nat)
    requires 0 < total
    ensures HalfEven(total * 100, total) == 100
  {
    var q, r := Divided(total * 100, total);
    ProductGrows(q, 100, total);
    ProductGrows(100, q, total);
  }
}
