/** The multi-threaded symmetry manager: the distance histogram of a
    molecule whose bodies carry symmetries, assembled from one distance
    calculation per pair of copies, where every calculation that symmetry
    makes equal to others is computed once and scaled. The distance
    calculator is an abstract map from request to histogram. */
module SymmetryManagerMT {
  import opened Wrappers
  import opened Histograms
  import opened Symmetries

  /** The tag recorded beside every enqueued calculation. */
  datatype HType =
    | SelfAA | SelfAW | SelfWW
    | SelfSymAA | SelfSymAW | SelfSymWW
    | CrossAA | CrossAW | CrossWW

  /** The three components of the result: atom-atom, water-water and
      atom-water. */
  datatype Component = AA | WW | AW

  /** The component a tag is routed to. */
  function ComponentOf(t: HType): Component {
    match t
    case SelfAA | SelfSymAA | CrossAA => AA
    case SelfWW | SelfSymWW | CrossWW => WW
    case SelfAW | SelfSymAW | CrossAW => AW
  }

  /** Which tag family a block of four calculations is recorded under. */
  datatype Family = SymFamily | CrossFamily

  function Tag(f: Family, c: Component): (t: HType)
    ensures ComponentOf(t) == c
  {
    match (f, c)
    case (SymFamily, AA) => SelfSymAA
    case (SymFamily, WW) => SelfSymWW
    case (SymFamily, AW) => SelfSymAW
    case (CrossFamily, AA) => CrossAA
    case (CrossFamily, WW) => CrossWW
    case (CrossFamily, AW) => CrossAW
  }

  datatype Part = Atomic | Waters

  /** Copy `rep` of symmetry `sym - 1` of a body; symmetry 0, copy 0 is the
      body itself, as in the layout of the transformed coordinates. */
  datatype Copy = Copy(body: nat, sym: nat, rep: nat)

  function Host(b: nat): Copy { Copy(b, 0, 0) }

  function Image(b: nat, s: nat, r: nat): Copy { Copy(b, 1 + s, r) }

  datatype Operand = Operand(copy: Copy, part: Part)

  /** A calculation handed to the distance calculator. */
  datatype Request = SelfOf(a: Operand) | CrossOf(a: Operand, b: Operand)

  /** What the manager records beside a calculation: its request and tag. */
  datatype Task = Task(req: Request, tag: HType)

  /** An index into the cross results and the scale to apply to it. */
  datatype ScaleResult = ScaleResult(index: nat, scale: nat)

  /** A calculation together with the scale the manager records for it
      (`None`: not recorded, so counted once). */
  datatype Job = Job(req: Request, tag: HType, scale: Option<nat>)

  function TaskOf(j: Job): Task { Task(j.req, j.tag) }

  function Tasks(js: seq<Job>): (ts: seq<Task>)
    ensures |ts| == |js|
  {
    seq(|js|, k requires 0 <= k < |js| => TaskOf(js[k]))
  }

  /** How many times a calculation counts in the result. */
  function Times(j: Job): nat {
    if j.scale.Some? then j.scale.value else 1
  }

  /** Every recorded scale is positive, as `scale_hist` demands. */
  predicate Positive(js: seq<Job>) {
    forall k :: 0 <= k < |js| ==> Times(js[k]) > 0
  }

  // ---- the enqueue plan, one function per loop of `calculate` ----

  /** The calculations for a pair of copies x, y: atoms with atoms and, with
      waters, atoms with waters, waters with waters and waters with atoms. */
  function PairJobs(x: Copy, y: Copy, f: Family, scale: Option<nat>, w: bool): (js: seq<Job>)
    requires scale.Some? ==> scale.value > 0
    ensures Positive(js)
    ensures |js| == if w then 4 else 1
  {
    var xa, xw, ya, yw := Operand(x, Atomic), Operand(x, Waters), Operand(y, Atomic), Operand(y, Waters);
    [Job(CrossOf(xa, ya), Tag(f, AA), scale)]
    + if w then [Job(CrossOf(xa, yw), Tag(f, AW), scale),
                 Job(CrossOf(xw, yw), Tag(f, WW), scale),
                 Job(CrossOf(xw, ya), Tag(f, AW), scale)]
      else []
  }

  predicate IsSym(bodies: seq<Body>, j: nat, s: nat) {
    j < |bodies| && s < |bodies[j].symmetries|
  }

  function Repeat(bodies: seq<Body>, j: nat, s: nat): nat
    requires IsSym(bodies, j, s)
  {
    bodies[j].symmetries[s].repeat
  }

  /** Copy x against the first k copies of symmetry s of body j. */
  function CopyRepeats(bodies: seq<Body>, j: nat, s: nat, x: Copy, f: Family, w: bool, k: nat): (js: seq<Job>)
    requires IsSym(bodies, j, s) && k <= Repeat(bodies, j, s)
    ensures Positive(js)
  {
    if k == 0 then []
    else CopyRepeats(bodies, j, s, x, f, w, k - 1) + PairJobs(x, Image(j, s, k - 1), f, None, w)
  }

  /** Copy x against every copy of the first k symmetries of body j. */
  function CopySyms(bodies: seq<Body>, j: nat, x: Copy, f: Family, w: bool, k: nat): (js: seq<Job>)
    requires j < |bodies| && k <= |bodies[j].symmetries|
    ensures Positive(js)
  {
    if k == 0 then []
    else CopySyms(bodies, j, x, f, w, k - 1) + CopyRepeats(bodies, j, k - 1, x, f, w, Repeat(bodies, j, k - 1))
  }

  /** Copy x of body b1 against the bodies b1+1 .. j-1 and their copies. */
  function CopyBodies(bodies: seq<Body>, b1: nat, x: Copy, w: bool, j: nat): (js: seq<Job>)
    requires b1 + 1 <= j <= |bodies|
    ensures Positive(js)
  {
    if j == b1 + 1 then []
    else
      CopyBodies(bodies, b1, x, w, j - 1)
      + PairJobs(Host(j - 1), x, CrossFamily, None, w)
      + CopySyms(bodies, j - 1, x, SymFamily, w, |bodies[j - 1].symmetries|)
  }

  /** Copy x of symmetry s1 against the copies of the later symmetries
      s1+1 .. k-1 of the same body. */
  function OwnSyms(bodies: seq<Body>, b1: nat, s1: nat, x: Copy, w: bool, k: nat): (js: seq<Job>)
    requires b1 < |bodies| && s1 + 1 <= k <= |bodies[b1].symmetries|
    ensures Positive(js)
  {
    if k == s1 + 1 then []
    else OwnSyms(bodies, b1, s1, x, w, k - 1) + CopyRepeats(bodies, b1, k - 1, x, SymFamily, w, Repeat(bodies, b1, k - 1))
  }

  /** The scaled host-versus-copy terms of copy r of symmetry s1, when that
      copy has terms of its own: the last copy of a folding symmetry has
      none, since its distances to the body are those of the first copy. */
  function HostTerm(bodies: seq<Body>, b1: nat, s1: nat, w: bool, r: nat): (js: seq<Job>)
    requires IsSym(bodies, b1, s1) && r < Repeat(bodies, b1, s1)
    ensures Positive(js)
  {
    var sym := bodies[b1].symmetries[s1];
    if r < HostTerms(sym) then PairJobs(Host(b1), Image(b1, s1, r), SymFamily, Some(Weight(sym, r)), w) else []
  }

  /** Everything enqueued for copy r of symmetry s1 of body b1: its
      host-versus-copy terms, then the copy against the later bodies, then
      against the later symmetries of its own body. */
  function RepeatBlock(bodies: seq<Body>, b1: nat, s1: nat, w: bool, r: nat): (js: seq<Job>)
    requires IsSym(bodies, b1, s1) && r < Repeat(bodies, b1, s1)
    ensures Positive(js)
  {
    HostTerm(bodies, b1, s1, w, r)
    + CopyBodies(bodies, b1, Image(b1, s1, r), w, |bodies|)
    + OwnSyms(bodies, b1, s1, Image(b1, s1, r), w, |bodies[b1].symmetries|)
  }

  /** The first k copies of symmetry s1. */
  function Repeats(bodies: seq<Body>, b1: nat, s1: nat, w: bool, k: nat): (js: seq<Job>)
    requires IsSym(bodies, b1, s1) && k <= Repeat(bodies, b1, s1)
    ensures Positive(js)
  {
    if k == 0 then []
    else Repeats(bodies, b1, s1, w, k - 1) + RepeatBlock(bodies, b1, s1, w, k - 1)
  }

  // ---- the repeat loop as written ----

  /** One pass of the loop `i_repeat1 < repeat - closed` as written: the
      host-versus-copy terms with the written weight, then the copy's
      terms against the later bodies and symmetries. */
  function RepeatBlockAsWritten(bodies: seq<Body>, b1: nat, s1: nat, w: bool, r: nat): (js: seq<Job>)
    requires IsSym(bodies, b1, s1) && r < HostTermsAsWritten(bodies[b1].symmetries[s1])
  {
    var sym := bodies[b1].symmetries[s1];
    PairJobs(Host(b1), Image(b1, s1, r), SymFamily, Some(WeightAsWritten(sym, r) as nat), w)
    + CopyBodies(bodies, b1, Image(b1, s1, r), w, |bodies|)
    + OwnSyms(bodies, b1, s1, Image(b1, s1, r), w, |bodies[b1].symmetries|)
  }

  /** The first k passes of that loop. The bound of the fold also cuts the
      last copy of a closed symmetry out of the terms against the later
      bodies and symmetries, whose distances fold onto nothing. */
  function RepeatsAsWritten(bodies: seq<Body>, b1: nat, s1: nat, w: bool, k: nat): (js: seq<Job>)
    requires IsSym(bodies, b1, s1) && k <= HostTermsAsWritten(bodies[b1].symmetries[s1])
  {
    if k == 0 then []
    else RepeatsAsWritten(bodies, b1, s1, w, k - 1) + RepeatBlockAsWritten(bodies, b1, s1, w, k - 1)
  }

  /** Two bodies, the first with a closed symmetry of two repeats: the loop
      as written never pairs the first body's second copy with the second
      body, which the corrected loop does. */
  lemma ClosedLastCopyUnpaired()
    ensures var bodies := [Body([Symmetry(2, true)]), Body([])];
      var j := Job(CrossOf(Operand(Host(1), Atomic), Operand(Image(0, 0, 1), Atomic)), CrossAA, None);
      j !in RepeatsAsWritten(bodies, 0, 0, false, 1) && j in Repeats(bodies, 0, 0, false, 2)
  {
    var bodies := [Body([Symmetry(2, true)]), Body([])];
    var x := Image(0, 0, 1);
    assert CopyBodies(bodies, 0, x, false, 2) == PairJobs(Host(1), x, CrossFamily, None, false);
    assert RepeatsAsWritten(bodies, 0, 0, false, 1) == RepeatBlockAsWritten(bodies, 0, 0, false, 0);
    assert CopyBodies(bodies, 0, Image(0, 0, 0), false, 2) == PairJobs(Host(1), Image(0, 0, 0), CrossFamily, None, false);
    assert RepeatBlock(bodies, 0, 0, false, 1) == PairJobs(Host(1), x, CrossFamily, None, false);
  }

  /** Copy x meets every later body j, as the first of its four terms. */
  lemma {:induction false} CopyBodiesMeet(bodies: seq<Body>, b1: nat, x: Copy, w: bool, j: nat, n: nat)
    requires b1 < j < n <= |bodies|
    ensures Job(CrossOf(Operand(Host(j), Atomic), Operand(x, Atomic)), CrossAA, None) in CopyBodies(bodies, b1, x, w, n)
  {
    if j < n - 1 {
      CopyBodiesMeet(bodies, b1, x, w, j, n - 1);
    }
  }

  /** The jobs of a copy are among the jobs of the first k copies, for
      every k past it. */
  lemma {:induction false} RepeatsContain(bodies: seq<Body>, b1: nat, s1: nat, w: bool, r: nat, k: nat, jb: Job)
    requires IsSym(bodies, b1, s1) && r < k <= Repeat(bodies, b1, s1) && jb in RepeatBlock(bodies, b1, s1, w, r)
    ensures jb in Repeats(bodies, b1, s1, w, k)
    decreases k
  {
    var n: nat := k - 1;
    RepeatsIn(bodies, b1, s1, w, n, k, jb);
    if r < n {
      RepeatsContain(bodies, b1, s1, w, r, n, jb);
    } else {
      assert r == n;
      assert RepeatBlock(bodies, b1, s1, w, r) == RepeatBlock(bodies, b1, s1, w, n);
    }
  }

  /** A job of the first k = n + 1 copies is a job of the first n or of
      copy n. */
  lemma RepeatsIn(bodies: seq<Body>, b1: nat, s1: nat, w: bool, n: nat, k: nat, jb: Job)
    requires IsSym(bodies, b1, s1) && k == n + 1 <= Repeat(bodies, b1, s1)
    ensures jb in Repeats(bodies, b1, s1, w, k) <==> jb in Repeats(bodies, b1, s1, w, n) || jb in RepeatBlock(bodies, b1, s1, w, n)
  {
  }

  /** Every copy of every symmetry, the last copy of a closed one
      included, is paired with every later body. */
  lemma EveryCopyMeetsLaterBodies(bodies: seq<Body>, b1: nat, s1: nat, w: bool, r: nat, j: nat)
    requires IsSym(bodies, b1, s1) && r < Repeat(bodies, b1, s1) && b1 < j < |bodies|
    ensures Job(CrossOf(Operand(Host(j), Atomic), Operand(Image(b1, s1, r), Atomic)), CrossAA, None) in Repeats(bodies, b1, s1, w, Repeat(bodies, b1, s1))
  {
    var jb := Job(CrossOf(Operand(Host(j), Atomic), Operand(Image(b1, s1, r), Atomic)), CrossAA, None);
    CopyBodiesMeet(bodies, b1, Image(b1, s1, r), w, j, |bodies|);
    assert jb in RepeatBlock(bodies, b1, s1, w, r);
    RepeatsContain(bodies, b1, s1, w, r, Repeat(bodies, b1, s1), jb);
  }

  /** The first k symmetries of body b1. */
  function SymJobs(bodies: seq<Body>, b1: nat, w: bool, k: nat): (js: seq<Job>)
    requires b1 < |bodies| && k <= |bodies[b1].symmetries|
    ensures Positive(js)
  {
    if k == 0 then []
    else SymJobs(bodies, b1, w, k - 1) + Repeats(bodies, b1, k - 1, w, Repeat(bodies, b1, k - 1))
  }

  /** Body b1 itself against the bodies b1+1 .. j-1 and their copies. */
  function HostBodies(bodies: seq<Body>, b1: nat, w: bool, j: nat): (js: seq<Job>)
    requires b1 + 1 <= j <= |bodies|
    ensures Positive(js)
  {
    if j == b1 + 1 then []
    else
      HostBodies(bodies, b1, w, j - 1)
      + PairJobs(Host(b1), Host(j - 1), CrossFamily, None, w)
      + CopySyms(bodies, j - 1, Host(b1), CrossFamily, w, |bodies[j - 1].symmetries|)
  }

  /** The atom-water term of the body itself, scaled like its self terms. */
  function SelfCross(bodies: seq<Body>, b1: nat, w: bool): (js: seq<Job>)
    requires b1 < |bodies|
    ensures Positive(js)
    ensures |js| == if w then 1 else 0
  {
    if w then [Job(CrossOf(Operand(Host(b1), Atomic), Operand(Host(b1), Waters)), SelfAW, Some(Duplicates(bodies[b1])))]
    else []
  }

  /** All cross calculations of body b1, in enqueue order. */
  function BodyJobs(bodies: seq<Body>, b1: nat, w: bool): (js: seq<Job>)
    requires b1 < |bodies|
    ensures Positive(js)
  {
    SelfCross(bodies, b1, w)
    + SymJobs(bodies, b1, w, |bodies[b1].symmetries|)
    + HostBodies(bodies, b1, w, |bodies|)
  }

  /** The cross calculations of the first k bodies. */
  function CrossJobs(bodies: seq<Body>, w: bool, k: nat): (js: seq<Job>)
    requires k <= |bodies|
    ensures Positive(js)
  {
    if k == 0 then [] else CrossJobs(bodies, w, k - 1) + BodyJobs(bodies, k - 1, w)
  }

  function PerBody(w: bool): nat { if w then 2 else 1 }

  /** The self calculations: per body the atoms and, with waters, the
      waters, each scaled by the number of copies of the body. */
  function SelfJobs(bodies: seq<Body>, w: bool): (js: seq<Job>)
    ensures |js| == PerBody(w) * |bodies|
  {
    var m := PerBody(w);
    seq(m * |bodies|, k requires 0 <= k < m * |bodies| =>
      var b := k / m;
      var water := w && k % 2 == 1;
      Job(SelfOf(Operand(Host(b), if water then Waters else Atomic)), if water then SelfWW else SelfAA, Some(Duplicates(bodies[b]))))
  }

  lemma SelfJobsPositive(bodies: seq<Body>, w: bool)
    ensures Positive(SelfJobs(bodies, w))
  {
  }

  // ---- the two queues the loops fill ----

  /** The tags of the cross calculations and the scale records. */
  datatype Queue = Queue(cross: seq<Task>, scales: seq<ScaleResult>)

  /** Enqueue one cross calculation, recording its scale under its index. */
  function Push(q: Queue, j: Job): Queue {
    Queue(q.cross + [TaskOf(j)], q.scales + if j.scale.Some? then [ScaleResult(|q.cross|, j.scale.value)] else [])
  }

  function Enqueued(q: Queue, js: seq<Job>): Queue {
    if js == [] then q else Push(Enqueued(q, js[..|js| - 1]), js[|js| - 1])
  }

  lemma EnqueuedSnoc(q: Queue, js: seq<Job>, j: Job)
    ensures Enqueued(q, js + [j]) == Push(Enqueued(q, js), j)
  {
    assert (js + [j])[..|js|] == js;
  }

  lemma {:induction false} EnqueuedAppend(q: Queue, a: seq<Job>, b: seq<Job>)
    ensures Enqueued(q, a + b) == Enqueued(Enqueued(q, a), b)
  {
    if b == [] {
      assert a + b == a;
    } else {
      var init, last := b[..|b| - 1], b[|b| - 1];
      assert a + b == (a + init) + [last];
      assert b == init + [last];
      EnqueuedSnoc(q, a + init, last);
      EnqueuedAppend(q, a, init);
      EnqueuedSnoc(Enqueued(q, a), init, last);
    }
  }

  // ---- the enqueue loops ----

  method EnqueuePair(x: Copy, y: Copy, f: Family, scale: Option<nat>, w: bool, q: Queue) returns (q': Queue)
    requires scale.Some? ==> scale.value > 0
    ensures q' == Enqueued(q, PairJobs(x, y, f, scale, w))
  {
    var js := PairJobs(x, y, f, scale, w);
    q' := Push(q, js[0]);
    EnqueuedSnoc(q, [], js[0]);
    assert [] + [js[0]] == js[..1];
    if w {
      q' := Push(q', js[1]);
      EnqueuedSnoc(q, js[..1], js[1]);
      assert js[..1] + [js[1]] == js[..2];
      q' := Push(q', js[2]);
      EnqueuedSnoc(q, js[..2], js[2]);
      assert js[..2] + [js[2]] == js[..3];
      q' := Push(q', js[3]);
      EnqueuedSnoc(q, js[..3], js[3]);
      assert js[..3] + [js[3]] == js;
    } else {
      assert js[..1] == js;
    }
  }

  method EnqueueCopyRepeats(bodies: seq<Body>, j: nat, s: nat, x: Copy, f: Family, w: bool, q: Queue) returns (q': Queue)
    requires IsSym(bodies, j, s)
    ensures q' == Enqueued(q, CopyRepeats(bodies, j, s, x, f, w, Repeat(bodies, j, s)))
  {
    q' := q;
    for r := 0 to Repeat(bodies, j, s)
      invariant q' == Enqueued(q, CopyRepeats(bodies, j, s, x, f, w, r))
    {
      var before := q';
      q' := EnqueuePair(x, Image(j, s, r), f, None, w, q');
      EnqueuedAppend(q, CopyRepeats(bodies, j, s, x, f, w, r), PairJobs(x, Image(j, s, r), f, None, w));
    }
  }

  method EnqueueCopySyms(bodies: seq<Body>, j: nat, x: Copy, f: Family, w: bool, q: Queue) returns (q': Queue)
    requires j < |bodies|
    ensures q' == Enqueued(q, CopySyms(bodies, j, x, f, w, |bodies[j].symmetries|))
  {
    q' := q;
    for s := 0 to |bodies[j].symmetries|
      invariant q' == Enqueued(q, CopySyms(bodies, j, x, f, w, s))
    {
      q' := EnqueueCopyRepeats(bodies, j, s, x, f, w, q');
      EnqueuedAppend(q, CopySyms(bodies, j, x, f, w, s), CopyRepeats(bodies, j, s, x, f, w, Repeat(bodies, j, s)));
    }
  }

  method EnqueueCopyBodies(bodies: seq<Body>, b1: nat, x: Copy, w: bool, q: Queue) returns (q': Queue)
    requires b1 < |bodies|
    ensures q' == Enqueued(q, CopyBodies(bodies, b1, x, w, |bodies|))
  {
    q' := q;
    for j := b1 + 1 to |bodies|
      invariant q' == Enqueued(q, CopyBodies(bodies, b1, x, w, j))
    {
      var prefix := CopyBodies(bodies, b1, x, w, j);
      var pair := PairJobs(Host(j), x, CrossFamily, None, w);
      q' := EnqueuePair(Host(j), x, CrossFamily, None, w, q');
      EnqueuedAppend(q, prefix, pair);
      q' := EnqueueCopySyms(bodies, j, x, SymFamily, w, q');
      EnqueuedAppend(q, prefix + pair, CopySyms(bodies, j, x, SymFamily, w, |bodies[j].symmetries|));
    }
  }

  method EnqueueOwnSyms(bodies: seq<Body>, b1: nat, s1: nat, x: Copy, w: bool, q: Queue) returns (q': Queue)
    requires IsSym(bodies, b1, s1)
    ensures q' == Enqueued(q, OwnSyms(bodies, b1, s1, x, w, |bodies[b1].symmetries|))
  {
    q' := q;
    for s2 := s1 + 1 to |bodies[b1].symmetries|
      invariant q' == Enqueued(q, OwnSyms(bodies, b1, s1, x, w, s2))
    {
      q' := EnqueueCopyRepeats(bodies, b1, s2, x, SymFamily, w, q');
      EnqueuedAppend(q, OwnSyms(bodies, b1, s1, x, w, s2), CopyRepeats(bodies, b1, s2, x, SymFamily, w, Repeat(bodies, b1, s2)));
    }
  }

  method EnqueueRepeat(bodies: seq<Body>, b1: nat, s1: nat, w: bool, r: nat, q: Queue) returns (q': Queue)
    requires IsSym(bodies, b1, s1) && r < Repeat(bodies, b1, s1)
    ensures q' == Enqueued(q, RepeatBlock(bodies, b1, s1, w, r))
  {
    var sym := bodies[b1].symmetries[s1];
    var c := Image(b1, s1, r);
    var host := HostTerm(bodies, b1, s1, w, r);
    var others := CopyBodies(bodies, b1, c, w, |bodies|);
    var own := OwnSyms(bodies, b1, s1, c, w, |bodies[b1].symmetries|);
    q' := q;
    if r < HostTerms(sym) {
      var scale := sym.repeat - r;
      if r == 0 && Folds(sym) {
        scale := scale + 1;
      }
      assert scale == Weight(sym, r);
      q' := EnqueuePair(Host(b1), c, SymFamily, Some(scale), w, q);
    }
    q' := EnqueueCopyBodies(bodies, b1, c, w, q');
    EnqueuedAppend(q, host, others);
    q' := EnqueueOwnSyms(bodies, b1, s1, c, w, q');
    EnqueuedAppend(q, host + others, own);
  }

  method EnqueueSyms(bodies: seq<Body>, b1: nat, w: bool, q: Queue) returns (q': Queue)
    requires b1 < |bodies|
    ensures q' == Enqueued(q, SymJobs(bodies, b1, w, |bodies[b1].symmetries|))
  {
    q' := q;
    for s1 := 0 to |bodies[b1].symmetries|
      invariant q' == Enqueued(q, SymJobs(bodies, b1, w, s1))
    {
      var q0 := q';
      var sym := bodies[b1].symmetries[s1];
      for r := 0 to sym.repeat
        invariant q' == Enqueued(q0, Repeats(bodies, b1, s1, w, r))
      {
        q' := EnqueueRepeat(bodies, b1, s1, w, r, q');
        EnqueuedAppend(q0, Repeats(bodies, b1, s1, w, r), RepeatBlock(bodies, b1, s1, w, r));
      }
      EnqueuedAppend(q, SymJobs(bodies, b1, w, s1), Repeats(bodies, b1, s1, w, sym.repeat));
    }
  }

  method EnqueueHostBodies(bodies: seq<Body>, b1: nat, w: bool, q: Queue) returns (q': Queue)
    requires b1 < |bodies|
    ensures q' == Enqueued(q, HostBodies(bodies, b1, w, |bodies|))
  {
    q' := q;
    for j := b1 + 1 to |bodies|
      invariant q' == Enqueued(q, HostBodies(bodies, b1, w, j))
    {
      var prefix := HostBodies(bodies, b1, w, j);
      var pair := PairJobs(Host(b1), Host(j), CrossFamily, None, w);
      q' := EnqueuePair(Host(b1), Host(j), CrossFamily, None, w, q');
      EnqueuedAppend(q, prefix, pair);
      q' := EnqueueCopySyms(bodies, j, Host(b1), CrossFamily, w, q');
      EnqueuedAppend(q, prefix + pair, CopySyms(bodies, j, Host(b1), CrossFamily, w, |bodies[j].symmetries|));
    }
  }

  /** The cross calculations of one body. */
  method EnqueueBody(bodies: seq<Body>, b: nat, w: bool, q: Queue) returns (q': Queue)
    requires b < |bodies|
    ensures q' == Enqueued(q, BodyJobs(bodies, b, w))
  {
    var selfCross := SelfCross(bodies, b, w);
    q' := q;
    if w {
      q' := Push(q', selfCross[0]);
      EnqueuedSnoc(q, [], selfCross[0]);
      assert [] + [selfCross[0]] == selfCross;
    } else {
      assert selfCross == [];
    }
    var syms := SymJobs(bodies, b, w, |bodies[b].symmetries|);
    q' := EnqueueSyms(bodies, b, w, q');
    EnqueuedAppend(q, selfCross, syms);
    q' := EnqueueHostBodies(bodies, b, w, q');
    EnqueuedAppend(q, selfCross + syms, HostBodies(bodies, b, w, |bodies|));
  }

  /** `self` holds the self calculations of the first b bodies. */
  predicate SelfPrefix(bodies: seq<Body>, w: bool, b: nat, self: seq<Task>) {
    |self| == PerBody(w) * b && b <= |bodies| &&
    forall k :: 0 <= k < |self| ==> self[k] == TaskOf(SelfJobs(bodies, w)[k])
  }

  function SelfTasksOf(b: nat, w: bool): seq<Task> {
    [Task(SelfOf(Operand(Host(b), Atomic)), SelfAA)]
    + if w then [Task(SelfOf(Operand(Host(b), Waters)), SelfWW)] else []
  }

  /** The self calculations of body b sit at positions m*b .. m*b+m-1. */
  lemma SelfStep(bodies: seq<Body>, w: bool, b: nat, self: seq<Task>)
    requires b < |bodies| && SelfPrefix(bodies, w, b, self)
    ensures SelfPrefix(bodies, w, b + 1, self + SelfTasksOf(b, w))
  {
    var m := PerBody(w);
    var next := self + SelfTasksOf(b, w);
    var js := SelfJobs(bodies, w);
    assert m * (b + 1) == m * b + m;
    assert m * (b + 1) <= m * |bodies|;
    forall k | m * b <= k < |next|
      ensures next[k] == TaskOf(js[k])
    {
      if k == m * b {
        assert k / m == b;
        assert w ==> k % 2 == 0;
      } else {
        assert w && k == 2 * b + 1;
        assert k / m == b && k % 2 == 1;
      }
    }
  }

  lemma SelfDone(bodies: seq<Body>, w: bool, self: seq<Task>)
    requires SelfPrefix(bodies, w, |bodies|, self)
    ensures self == Tasks(SelfJobs(bodies, w))
  {
  }

  /** The enqueue phase of `calculate`: the self calculations, and the
      queue of cross calculations with their scale records. The number of
      self calculations is the one the source asserts. */
  method Enqueue(bodies: seq<Body>, w: bool) returns (self: seq<Task>, q: Queue)
    ensures self == Tasks(SelfJobs(bodies, w))
    ensures |self| == PerBody(w) * |bodies|
    ensures q == Enqueued(Queue([], []), CrossJobs(bodies, w, |bodies|))
  {
    self := [];
    q := Queue([], []);
    for b := 0 to |bodies|
      invariant SelfPrefix(bodies, w, b, self)
      invariant q == Enqueued(Queue([], []), CrossJobs(bodies, w, b))
    {
      SelfStep(bodies, w, b, self);
      self := self + SelfTasksOf(b, w);
      q := EnqueueBody(bodies, b, w, q);
      EnqueuedAppend(Queue([], []), CrossJobs(bodies, w, b), BodyJobs(bodies, b, w));
    }
    SelfDone(bodies, w, self);
  }

  // ---- scaling, routing and the result ----

  /** The calculator's results for a list of tasks. */
  function Raw(ts: seq<Task>, hist: Request -> Hist): (rs: seq<Hist>)
    ensures |rs| == |ts|
  {
    seq(|ts|, k requires 0 <= k < |ts| => hist(ts[k].req))
  }

  /** Each calculation scaled by the number of times it counts. */
  function Scaled(js: seq<Job>, hist: Request -> Hist): (rs: seq<Hist>)
    ensures |rs| == |js|
  {
    seq(|js|, k requires 0 <= k < |js| => Scale(hist(js[k].req), Times(js[k]) as real))
  }

  /** The calculator returns histograms over the distance axis. */
  ghost predicate Sized(hist: Request -> Hist, bins: nat) {
    forall r :: |hist(r)| == bins
  }

  predicate AllSized(rs: seq<Hist>, bins: nat) {
    forall k :: 0 <= k < |rs| ==> |rs[k]| == bins
  }

  lemma ScaledSized(js: seq<Job>, hist: Request -> Hist, bins: nat)
    requires Sized(hist, bins)
    ensures AllSized(Scaled(js, hist), bins)
  {
    forall k | 0 <= k < |js| ensures |Scaled(js, hist)[k]| == bins {
      assert |hist(js[k].req)| == bins;
    }
  }

  /** The first n scale records applied, in order, to a list of results. */
  function Applied(rs: seq<Hist>, sc: seq<ScaleResult>, n: nat): (out: seq<Hist>)
    requires n <= |sc| && forall p :: 0 <= p < n ==> sc[p].index < |rs|
    ensures |out| == |rs|
  {
    if n == 0 then rs
    else
      var prev := Applied(rs, sc, n - 1);
      var i := sc[n - 1].index;
      prev[i := Scale(prev[i], sc[n - 1].scale as real)]
  }

  /** Every scale record names an enqueued calculation and a positive
      scale. */
  predicate Recorded(q: Queue) {
    forall p :: 0 <= p < |q.scales| ==> q.scales[p].index < |q.cross| && q.scales[p].scale > 0
  }

  lemma {:induction false} QueueShape(js: seq<Job>)
    requires Positive(js)
    ensures Enqueued(Queue([], []), js).cross == Tasks(js)
    ensures Recorded(Enqueued(Queue([], []), js))
  {
    if js != [] {
      var init := js[..|js| - 1];
      assert Positive(init) by {
        forall k | 0 <= k < |init| ensures Times(init[k]) > 0 {
          assert init[k] == js[k];
        }
      }
      QueueShape(init);
    }
  }

  lemma {:induction false} AppliedExtend(rs: seq<Hist>, x: Hist, sc: seq<ScaleResult>, n: nat)
    requires n <= |sc| && forall p :: 0 <= p < n ==> sc[p].index < |rs|
    ensures Applied(rs + [x], sc, n) == Applied(rs, sc, n) + [x]
  {
    if n > 0 {
      AppliedExtend(rs, x, sc, n - 1);
    }
  }

  lemma {:induction false} AppliedPrefix(rs: seq<Hist>, sc: seq<ScaleResult>, extra: seq<ScaleResult>, n: nat)
    requires n <= |sc| && forall p :: 0 <= p < n ==> sc[p].index < |rs|
    ensures Applied(rs, sc + extra, n) == Applied(rs, sc, n)
  {
    if n > 0 {
      AppliedPrefix(rs, sc, extra, n - 1);
    }
  }

  /** One push keeps the records valid and extends the applied results by
      the pushed calculation, scaled by the number of times it counts. */
  lemma AppliedPush(q: Queue, j: Job, hist: Request -> Hist, done: seq<Hist>)
    requires Recorded(q) && Times(j) > 0
    requires Applied(Raw(q.cross, hist), q.scales, |q.scales|) == done
    ensures Recorded(Push(q, j))
    ensures Applied(Raw(Push(q, j).cross, hist), Push(q, j).scales, |Push(q, j).scales|)
            == done + [Scale(hist(j.req), Times(j) as real)]
  {
    var x := hist(j.req);
    var raw := Raw(q.cross, hist);
    assert Raw(q.cross + [TaskOf(j)], hist) == raw + [x];
    AppliedExtend(raw, x, q.scales, |q.scales|);
    if j.scale.Some? {
      var extra := [ScaleResult(|q.cross|, j.scale.value)];
      AppliedPrefix(raw + [x], q.scales, extra, |q.scales|);
      var sc := q.scales + extra;
      assert Push(q, j).scales == sc && sc[|q.scales|] == ScaleResult(|done|, j.scale.value);
      var prev := Applied(raw + [x], sc, |q.scales|);
      assert prev == done + [x];
      assert Applied(raw + [x], sc, |sc|) == prev[|done| := Scale(x, j.scale.value as real)];
    } else {
      assert Push(q, j) == Queue(q.cross + [TaskOf(j)], q.scales);
      assert Times(j) as real == 1.0 && Scale(x, 1.0) == x;
    }
  }

  /** Applying the scale records the queue holds to the calculator's results
      gives every calculation scaled by the number of times it counts: none
      is scaled twice and none is missed. */
  lemma {:induction false} AppliedIsScaled(js: seq<Job>, hist: Request -> Hist)
    requires Positive(js)
    ensures Recorded(Enqueued(Queue([], []), js))
    ensures var q := Enqueued(Queue([], []), js);
            Applied(Raw(q.cross, hist), q.scales, |q.scales|) == Scaled(js, hist)
  {
    if js != [] {
      var init, j := js[..|js| - 1], js[|js| - 1];
      assert Positive(init) by {
        forall k | 0 <= k < |init| ensures Times(init[k]) > 0 {
          assert init[k] == js[k];
        }
      }
      AppliedIsScaled(init, hist);
      var q := Enqueued(Queue([], []), init);
      assert Enqueued(Queue([], []), js) == Push(q, j);
      AppliedPush(q, j, hist, Scaled(init, hist));
      assert Scaled(js, hist) == Scaled(init, hist) + [Scale(hist(j.req), Times(j) as real)];
    }
  }

  /** The results routed to component c among the first n. */
  function SumComp(rs: seq<Hist>, ts: seq<Task>, c: Component, n: nat, bins: nat): (s: Hist)
    requires |rs| == |ts| && n <= |rs| && AllSized(rs, bins)
    ensures |s| == bins
  {
    if n == 0 then Zeros(bins)
    else
      var prev := SumComp(rs, ts, c, n - 1, bins);
      if ComponentOf(ts[n - 1].tag) == c then Add(prev, rs[n - 1]) else prev
  }

  /** All of the first n results. */
  function SumAll(rs: seq<Hist>, n: nat, bins: nat): (s: Hist)
    requires n <= |rs| && AllSized(rs, bins)
    ensures |s| == bins
  {
    if n == 0 then Zeros(bins) else Add(SumAll(rs, n - 1, bins), rs[n - 1])
  }

  /** Component c of the result: the self and the cross calculations routed
      to c, each scaled by the number of times it counts. */
  function ComponentHist(bodies: seq<Body>, w: bool, hist: Request -> Hist, bins: nat, c: Component): (h: Hist)
    requires Sized(hist, bins)
    ensures |h| == bins
  {
    var sj := SelfJobs(bodies, w);
    var cj := CrossJobs(bodies, w, |bodies|);
    ScaledSized(sj, hist, bins);
    ScaledSized(cj, hist, bins);
    Add(SumComp(Scaled(sj, hist), Tasks(sj), c, |sj|, bins), SumComp(Scaled(cj, hist), Tasks(cj), c, |cj|, bins))
  }

  /** The total before truncation: the sum of the three components. */
  function Total(bodies: seq<Body>, w: bool, hist: Request -> Hist, bins: nat): (h: Hist)
    requires Sized(hist, bins)
    ensures |h| == bins
  {
    Add(Add(ComponentHist(bodies, w, hist, bins, AA), ComponentHist(bodies, w, hist, bins, WW)),
        ComponentHist(bodies, w, hist, bins, AW))
  }

  /** Routing is a partition: the three component sums add up to the sum of
      all results, so each result is counted in exactly one component. */
  lemma {:induction false} RoutingPartitions(rs: seq<Hist>, ts: seq<Task>, n: nat, bins: nat)
    requires |rs| == |ts| && n <= |rs| && AllSized(rs, bins)
    ensures Add(Add(SumComp(rs, ts, AA, n, bins), SumComp(rs, ts, WW, n, bins)), SumComp(rs, ts, AW, n, bins))
            == SumAll(rs, n, bins)
  {
    if n == 0 {
      AddZeros(Zeros(bins));
    } else {
      RoutingPartitions(rs, ts, n - 1, bins);
      var a, ww, aw := SumComp(rs, ts, AA, n - 1, bins), SumComp(rs, ts, WW, n - 1, bins), SumComp(rs, ts, AW, n - 1, bins);
      var x := rs[n - 1];
      AddAnywhere(a, ww, aw, x);
    }
  }

  /** Adding x to any one of three histograms adds it to their sum. */
  lemma AddAnywhere(a: Hist, b: Hist, c: Hist, x: Hist)
    requires |a| == |b| == |c| == |x|
    ensures Add(Add(Add(a, x), b), c) == Add(Add(Add(a, b), c), x)
    ensures Add(Add(a, Add(b, x)), c) == Add(Add(Add(a, b), c), x)
    ensures Add(Add(a, b), Add(c, x)) == Add(Add(Add(a, b), c), x)
  {
  }

  /** Every calculation, self or cross, is counted exactly once in the total,
      with its scale. */
  lemma TotalCountsEachOnce(bodies: seq<Body>, w: bool, hist: Request -> Hist, bins: nat)
    requires Sized(hist, bins)
    ensures var sj, cj := SelfJobs(bodies, w), CrossJobs(bodies, w, |bodies|);
            AllSized(Scaled(sj, hist), bins) && AllSized(Scaled(cj, hist), bins) &&
            Total(bodies, w, hist, bins) == Add(SumAll(Scaled(sj, hist), |sj|, bins), SumAll(Scaled(cj, hist), |cj|, bins))
  {
    var sj, cj := SelfJobs(bodies, w), CrossJobs(bodies, w, |bodies|);
    ScaledSized(sj, hist, bins);
    ScaledSized(cj, hist, bins);
    var srs, crs := Scaled(sj, hist), Scaled(cj, hist);
    RoutingPartitions(srs, Tasks(sj), |sj|, bins);
    RoutingPartitions(crs, Tasks(cj), |cj|, bins);
    var s1, s2, s3 := SumComp(srs, Tasks(sj), AA, |sj|, bins), SumComp(srs, Tasks(sj), WW, |sj|, bins), SumComp(srs, Tasks(sj), AW, |sj|, bins);
    var c1, c2, c3 := SumComp(crs, Tasks(cj), AA, |cj|, bins), SumComp(crs, Tasks(cj), WW, |cj|, bins), SumComp(crs, Tasks(cj), AW, |cj|, bins);
    assert Total(bodies, w, hist, bins) == Add(Add(Add(s1, c1), Add(s2, c2)), Add(s3, c3));
    Regroup(s1, s2, s3, c1, c2, c3);
  }

  /** Six histograms of one size summed pairwise or by thirds. */
  lemma Regroup(s1: Hist, s2: Hist, s3: Hist, c1: Hist, c2: Hist, c3: Hist)
    requires |s1| == |s2| == |s3| == |c1| == |c2| == |c3|
    ensures Add(Add(Add(s1, c1), Add(s2, c2)), Add(s3, c3)) == Add(Add(Add(s1, s2), s3), Add(Add(c1, c2), c3))
  {
  }

  /** The self histograms of body i scaled by its number of copies. */
  method ScaleSelf(bodies: seq<Body>, w: bool, rs: seq<Hist>) returns (out: seq<Hist>)
    requires |rs| == PerBody(w) * |bodies|
    ensures |out| == |rs|
    ensures forall k :: 0 <= k < |rs| ==> out[k] == Scale(rs[k], Times(SelfJobs(bodies, w)[k]) as real)
  {
    var m := PerBody(w);
    ghost var js := SelfJobs(bodies, w);
    out := rs;
    for i := 0 to |bodies|
      invariant |out| == |rs|
      invariant forall k :: 0 <= k < m * i ==> out[k] == Scale(rs[k], Times(js[k]) as real)
      invariant forall k :: m * i <= k < |rs| ==> out[k] == rs[k]
    {
      var duplicates := 1 + SymmetryTotal(bodies[i].symmetries);
      assert m * (i + 1) == m * i + m <= m * |bodies|;
      if w {
        assert (2 * i) / 2 == i && (2 * i + 1) / 2 == i && (2 * i + 1) % 2 == 1;
        var h0 := ScaleHist(out[2 * i], duplicates);
        out := out[2 * i := h0];
        var h1 := ScaleHist(out[2 * i + 1], duplicates);
        out := out[2 * i + 1 := h1];
      } else {
        var h := ScaleHist(out[i], duplicates);
        out := out[i := h];
      }
    }
  }

  /** The selected cross histograms scaled by their recorded scale. */
  method ScaleCross(rs: seq<Hist>, sc: seq<ScaleResult>) returns (out: seq<Hist>)
    requires forall p :: 0 <= p < |sc| ==> sc[p].index < |rs| && sc[p].scale > 0
    ensures out == Applied(rs, sc, |sc|)
  {
    out := rs;
    for i := 0 to |sc|
      invariant out == Applied(rs, sc, i)
    {
      var index := sc[i].index;
      var h := ScaleHist(out[index], sc[i].scale);
      out := out[index := h];
    }
  }

  /** The shape of the self results: per body the atoms, then (with waters)
      the waters. */
  predicate SelfTags(ts: seq<Task>, w: bool) {
    forall k :: 0 <= k < |ts| ==> ts[k].tag == if w && k % 2 == 1 then SelfWW else SelfAA
  }

  /** The self terms summed per component, with p_ww (and, with waters, p_aw
      from the first cross result) seeded as the source does. */
  method AddSelf(selfRes: seq<Hist>, selfTasks: seq<Task>, w: bool, nb: nat, bins: nat)
    returns (pAA: Hist, pWW: Hist)
    requires nb >= 1 && |selfRes| == |selfTasks| == PerBody(w) * nb
    requires AllSized(selfRes, bins) && SelfTags(selfTasks, w)
    ensures pAA == SumComp(selfRes, selfTasks, AA, |selfRes|, bins)
    ensures pWW == SumComp(selfRes, selfTasks, WW, |selfRes|, bins)
  {
    var m := PerBody(w);
    pAA := selfRes[0];
    if w {
      pWW := selfRes[1];
    } else {
      pWW := Zeros(|pAA|);
    }
    SelfSumsStart(selfRes, selfTasks, w, bins);
    assert m * 1 == m;
    for i := 1 to nb
      invariant pAA == SumComp(selfRes, selfTasks, AA, m * i, bins)
      invariant pWW == SumComp(selfRes, selfTasks, WW, m * i, bins)
    {
      var k := m * i;
      assert m * (i + 1) == k + m <= m * nb;
      assert w ==> k % 2 == 0;
      SelfSumsStep(selfRes, selfTasks, w, k, bins);
      if w {
        pAA := Add(pAA, selfRes[k]);
        pWW := Add(pWW, selfRes[k + 1]);
      } else {
        pAA := Add(pAA, selfRes[k]);
      }
    }
  }

  /** The first body's self terms seed the two sums. */
  lemma SelfSumsStart(rs: seq<Hist>, ts: seq<Task>, w: bool, bins: nat)
    requires PerBody(w) <= |rs| == |ts| && AllSized(rs, bins) && SelfTags(ts, w)
    ensures SumComp(rs, ts, AA, PerBody(w), bins) == rs[0]
    ensures SumComp(rs, ts, WW, PerBody(w), bins) == if w then rs[1] else Zeros(|rs[0]|)
  {
    assert ts[0].tag == SelfAA;
    AddZeros(rs[0]);
    if w {
      assert ts[1].tag == SelfWW by {
        assert 1 % 2 == 1;
      }
      AddZeros(rs[1]);
      assert SumComp(rs, ts, AA, 1, bins) == rs[0];
      assert SumComp(rs, ts, WW, 1, bins) == Zeros(bins);
    }
  }

  /** One more body's self terms: the atoms go to p_aa, the waters (when
      there are any) to p_ww. */
  lemma SelfSumsStep(rs: seq<Hist>, ts: seq<Task>, w: bool, k: nat, bins: nat)
    requires k + PerBody(w) <= |rs| == |ts| && AllSized(rs, bins) && SelfTags(ts, w)
    requires w ==> k % 2 == 0
    ensures SumComp(rs, ts, AA, k + PerBody(w), bins) == Add(SumComp(rs, ts, AA, k, bins), rs[k])
    ensures SumComp(rs, ts, WW, k + PerBody(w), bins) ==
      if w then Add(SumComp(rs, ts, WW, k, bins), rs[k + 1]) else SumComp(rs, ts, WW, k, bins)
  {
    if w {
      assert (k + 1) % 2 == 1;
      assert ts[k].tag == SelfAA && ts[k + 1].tag == SelfWW;
      assert SumComp(rs, ts, AA, k + 1, bins) == Add(SumComp(rs, ts, AA, k, bins), rs[k]);
      assert SumComp(rs, ts, WW, k + 1, bins) == SumComp(rs, ts, WW, k, bins);
    } else {
      assert ts[k].tag == SelfAA;
    }
  }

  lemma {:induction false} NoSelfAW(rs: seq<Hist>, ts: seq<Task>, w: bool, n: nat, bins: nat)
    requires |rs| == |ts| && n <= |rs| && AllSized(rs, bins) && SelfTags(ts, w)
    ensures SumComp(rs, ts, AW, n, bins) == Zeros(bins)
  {
    if n > 0 {
      NoSelfAW(rs, ts, w, n - 1, bins);
    }
  }

  /** The cross terms routed by tag; with waters the first one, the body's
      own atom-water term, has already seeded p_aw. */
  method RouteCross(crossRes: seq<Hist>, crossTasks: seq<Task>, w: bool, bins: nat,
                    sAA: Hist, sWW: Hist, sAW: Hist) returns (pAA: Hist, pWW: Hist, pAW: Hist)
    requires |crossRes| == |crossTasks| && AllSized(crossRes, bins)
    requires |sAA| == |sWW| == |sAW| == bins
    requires w ==> |crossRes| >= 1 && crossTasks[0].tag == SelfAW && sAW == Zeros(bins)
    ensures pAA == Add(sAA, SumComp(crossRes, crossTasks, AA, |crossRes|, bins))
    ensures pWW == Add(sWW, SumComp(crossRes, crossTasks, WW, |crossRes|, bins))
    ensures pAW == Add(sAW, SumComp(crossRes, crossTasks, AW, |crossRes|, bins))
  {
    AddZeros(sAA);
    AddZeros(sWW);
    AddZeros(sAW);
    pAA, pWW := sAA, sWW;
    var start := 0;
    if w {
      pAW := crossRes[0];
      AddZeros(pAW);
      start := 1;
    } else {
      pAW := sAW;
    }
    for i := start to |crossRes|
      invariant pAA == Add(sAA, SumComp(crossRes, crossTasks, AA, i, bins))
      invariant pWW == Add(sWW, SumComp(crossRes, crossTasks, WW, i, bins))
      invariant pAW == Add(sAW, SumComp(crossRes, crossTasks, AW, i, bins))
    {
      SumCompNext(crossRes, crossTasks, AA, i, bins);
      SumCompNext(crossRes, crossTasks, WW, i, bins);
      SumCompNext(crossRes, crossTasks, AW, i, bins);
      match ComponentOf(crossTasks[i].tag)
      case AA =>
        AddAssoc(sAA, SumComp(crossRes, crossTasks, AA, i, bins), crossRes[i]);
        pAA := Add(pAA, crossRes[i]);
      case WW =>
        AddAssoc(sWW, SumComp(crossRes, crossTasks, WW, i, bins), crossRes[i]);
        pWW := Add(pWW, crossRes[i]);
      case AW =>
        AddAssoc(sAW, SumComp(crossRes, crossTasks, AW, i, bins), crossRes[i]);
        pAW := Add(pAW, crossRes[i]);
    }
  }

  /** One more result adds to its own component's sum only. */
  lemma SumCompNext(rs: seq<Hist>, ts: seq<Task>, c: Component, n: nat, bins: nat)
    requires |rs| == |ts| && n < |rs| && AllSized(rs, bins)
    ensures SumComp(rs, ts, c, n + 1, bins) ==
      if ComponentOf(ts[n].tag) == c then Add(SumComp(rs, ts, c, n, bins), rs[n]) else SumComp(rs, ts, c, n, bins)
  {
  }

  /** `p_tot[i] = p_aa[i] + p_ww[i] + p_aw[i]` over the distance axis. */
  method SumParts(pAA: Hist, pWW: Hist, pAW: Hist, bins: nat) returns (pTot: Hist)
    requires |pAA| == |pWW| == |pAW| == bins
    ensures pTot == Add(Add(pAA, pWW), pAW)
  {
    pTot := Zeros(bins);
    for i := 0 to bins
      invariant |pTot| == bins
      invariant forall k :: 0 <= k < i ==> pTot[k] == pAA[k] + pWW[k] + pAW[k]
    {
      pTot := pTot[i := pAA[i] + pWW[i] + pAW[i]];
    }
  }

  lemma {:induction false} CrossJobsStart(bodies: seq<Body>, k: nat)
    requires 1 <= k <= |bodies|
    ensures |CrossJobs(bodies, true, k)| >= 1
    ensures CrossJobs(bodies, true, k)[0] == SelfCross(bodies, 0, true)[0]
  {
    if k > 1 {
      CrossJobsStart(bodies, k - 1);
    } else {
      assert CrossJobs(bodies, true, 1) == BodyJobs(bodies, 0, true);
    }
  }

  lemma SelfJobsTagged(bodies: seq<Body>, w: bool)
    ensures SelfTags(Tasks(SelfJobs(bodies, w)), w)
  {
  }

  /** `calculate`: enqueue, run the calculator, scale, route and truncate.
      Each component is the set of calculations routed to it, each scaled by
      the number of copy pairs it stands for, and all four results are cut
      to the truncated length of the total. */
  method Calculate(bodies: seq<Body>, w: bool, hist: Request -> Hist, bins: nat)
    returns (pAA: Hist, pWW: Hist, pAW: Hist, pTot: Hist)
    requires |bodies| >= 1
    requires Sized(hist, bins)
    ensures pTot == Truncated(Total(bodies, w, hist, bins))
    ensures pAA == Resize(ComponentHist(bodies, w, hist, bins, AA), |pTot|)
    ensures pWW == Resize(ComponentHist(bodies, w, hist, bins, WW), |pTot|)
    ensures pAW == Resize(ComponentHist(bodies, w, hist, bins, AW), |pTot|)
  {
    var self, q := Enqueue(bodies, w);
    ghost var sj, cj := SelfJobs(bodies, w), CrossJobs(bodies, w, |bodies|);
    AppliedIsScaled(cj, hist);
    ScaledSized(sj, hist, bins);
    ScaledSized(cj, hist, bins);
    SelfJobsTagged(bodies, w);
    var selfRes := Raw(self, hist);
    var crossRes := Raw(q.cross, hist);
    selfRes := ScaleSelf(bodies, w, selfRes);
    assert selfRes == Scaled(sj, hist);
    crossRes := ScaleCross(crossRes, q.scales);
    QueueShape(cj);
    if w {
      CrossJobsStart(bodies, |bodies|);
    }
    var sAA, sWW := AddSelf(selfRes, self, w, |bodies|, bins);
    NoSelfAW(selfRes, self, w, |selfRes|, bins);
    pAA, pWW, pAW := RouteCross(crossRes, q.cross, w, bins, sAA, sWW, Zeros(bins));
    pTot := SumParts(pAA, pWW, pAW, bins);
    var maxBin := TruncationBin(NonZero(pTot));
    pAA := Resize(pAA, maxBin);
    pWW := Resize(pWW, maxBin);
    pAW := Resize(pAW, maxBin);
    pTot := Resize(pTot, maxBin);
  }

  // ---- a worked example: one single-atom body, three translated copies ----

  function ExampleBodies(): seq<Body> { [Body([Symmetry(3, false)])] }

  /** A calculator for a one-atom body translated by one bin per copy, on
      a four-bin distance axis: the atom with itself counts once at distance
      0, the body against copy r counts both orderings at distance r + 1. */
  function ExampleHist(r: Request): (h: Hist)
    ensures |h| == 4
  {
    match r
    case SelfOf(_) => [1.0, 0.0, 0.0, 0.0]
    case CrossOf(a, b) =>
      if a.copy != Host(0) || b.copy.sym != 1 then [0.0, 0.0, 0.0, 0.0]
      else if b.copy.rep == 0 then [0.0, 2.0, 0.0, 0.0]
      else if b.copy.rep == 1 then [0.0, 0.0, 2.0, 0.0]
      else if b.copy.rep == 2 then [0.0, 0.0, 0.0, 2.0]
      else [0.0, 0.0, 0.0, 0.0]
  }

  function ExampleJob(r: nat): Job
    requires r < 3
  {
    Job(CrossOf(Operand(Host(0), Atomic), Operand(Image(0, 0, r), Atomic)), SelfSymAA, Some(3 - r))
  }

  /** Only the host-versus-copy terms are enqueued, the nearer copies with
      the larger weights 3, 2, 1. */
  lemma ExampleCrossJobs()
    ensures CrossJobs(ExampleBodies(), false, 1) == [ExampleJob(0), ExampleJob(1), ExampleJob(2)]
  {
    var bodies := ExampleBodies();
    var sym := bodies[0].symmetries[0];
    assert HostTerms(sym) == 3;
    forall r | 0 <= r < 3
      ensures RepeatBlock(bodies, 0, 0, false, r) == [ExampleJob(r)]
    {
      assert Weight(sym, r) == 3 - r;
      assert CopyBodies(bodies, 0, Image(0, 0, r), false, 1) == [];
      assert OwnSyms(bodies, 0, 0, Image(0, 0, r), false, 1) == [];
    }
    assert Repeats(bodies, 0, 0, false, 3) == [ExampleJob(0), ExampleJob(1), ExampleJob(2)];
    assert SymJobs(bodies, 0, false, 1) == Repeats(bodies, 0, 0, false, 3);
    assert HostBodies(bodies, 0, false, 1) == [];
    assert BodyJobs(bodies, 0, false) == SymJobs(bodies, 0, false, 1);
  }

  /** Scale by a small whole factor, spelled out on four bins. */
  lemma ScaleFour(h: Hist, k: real, e: Hist)
    requires |h| == 4 && |e| == 4
    requires e[0] == k * h[0] && e[1] == k * h[1] && e[2] == k * h[2] && e[3] == k * h[3]
    ensures Scale(h, k) == e
  {
    var c := Scale(h, k);
    assert c[0] == e[0] && c[1] == e[1] && c[2] == e[2] && c[3] == e[3];
  }

  lemma ExampleSelfScaled()
    ensures Scaled(SelfJobs(ExampleBodies(), false), ExampleHist) == [[4.0, 0.0, 0.0, 0.0]]
  {
    var sj := SelfJobs(ExampleBodies(), false);
    var r := Scaled(sj, ExampleHist);
    var syms := ExampleBodies()[0].symmetries;
    assert syms[..0] == [];
    assert SymmetryTotal(syms) == 3;
    assert PerBody(false) * |ExampleBodies()| == 1 && 0 / PerBody(false) == 0;
    assert sj[0] == Job(SelfOf(Operand(Host(0), Atomic)), SelfAA, Some(4));
    assert Times(sj[0]) as real == 4.0;
    assert ExampleHist(sj[0].req) == [1.0, 0.0, 0.0, 0.0];
    assert r[0] == Scale(ExampleHist(sj[0].req), Times(sj[0]) as real);
    ScaleFour([1.0, 0.0, 0.0, 0.0], 4.0, [4.0, 0.0, 0.0, 0.0]);
  }

  lemma ExampleCrossScaled()
    ensures Scaled(CrossJobs(ExampleBodies(), false, 1), ExampleHist)
            == [[0.0, 6.0, 0.0, 0.0], [0.0, 0.0, 4.0, 0.0], [0.0, 0.0, 0.0, 2.0]]
  {
    ExampleCrossJobs();
    ExampleJobsScaled();
  }

  /** The three weighted host-versus-copy results of the example. */
  lemma ExampleJobsScaled()
    ensures Scaled([ExampleJob(0), ExampleJob(1), ExampleJob(2)], ExampleHist)
            == [[0.0, 6.0, 0.0, 0.0], [0.0, 0.0, 4.0, 0.0], [0.0, 0.0, 0.0, 2.0]]
  {
    var cj := [ExampleJob(0), ExampleJob(1), ExampleJob(2)];
    var r := Scaled(cj, ExampleHist);
    assert r[0] == Scale([0.0, 2.0, 0.0, 0.0], 3.0) by {
      assert cj[0] == ExampleJob(0);
      assert ExampleHist(cj[0].req) == [0.0, 2.0, 0.0, 0.0];
      assert Times(cj[0]) as real == 3.0;
      assert r[0] == Scale(ExampleHist(cj[0].req), Times(cj[0]) as real);
    }
    assert r[1] == Scale([0.0, 0.0, 2.0, 0.0], 2.0) by {
      assert cj[1] == ExampleJob(1);
      assert ExampleHist(cj[1].req) == [0.0, 0.0, 2.0, 0.0];
      assert Times(cj[1]) as real == 2.0;
      assert r[1] == Scale(ExampleHist(cj[1].req), Times(cj[1]) as real);
    }
    assert r[2] == Scale([0.0, 0.0, 0.0, 2.0], 1.0) by {
      assert cj[2] == ExampleJob(2);
      assert ExampleHist(cj[2].req) == [0.0, 0.0, 0.0, 2.0];
      assert Times(cj[2]) as real == 1.0;
      assert r[2] == Scale(ExampleHist(cj[2].req), Times(cj[2]) as real);
    }
    ScaleFour([0.0, 2.0, 0.0, 0.0], 3.0, [0.0, 6.0, 0.0, 0.0]);
    ScaleFour([0.0, 0.0, 2.0, 0.0], 2.0, [0.0, 0.0, 4.0, 0.0]);
    ScaleFour([0.0, 0.0, 0.0, 2.0], 1.0, [0.0, 0.0, 0.0, 2.0]);
  }

  lemma AddFour(a: Hist, b: Hist, e: Hist)
    requires |a| == 4 && |b| == 4 && |e| == 4
    requires e[0] == a[0] + b[0] && e[1] == a[1] + b[1] && e[2] == a[2] + b[2] && e[3] == a[3] + b[3]
    ensures Add(a, b) == e
  {
  }

  /** When every result is routed to the atom-atom component, that
      component is the sum of all of them and the others stay empty. */
  lemma {:induction false} AllAtomAtom(rs: seq<Hist>, ts: seq<Task>, n: nat, bins: nat)
    requires |rs| == |ts| && n <= |rs| && AllSized(rs, bins)
    requires forall k :: 0 <= k < n ==> ComponentOf(ts[k].tag) == AA
    ensures SumComp(rs, ts, AA, n, bins) == SumAll(rs, n, bins)
    ensures SumComp(rs, ts, WW, n, bins) == Zeros(bins)
    ensures SumComp(rs, ts, AW, n, bins) == Zeros(bins)
  {
    if n > 0 {
      AllAtomAtom(rs, ts, n - 1, bins);
    }
  }

  lemma ExampleSums(srs: seq<Hist>, crs: seq<Hist>)
    requires srs == [[4.0, 0.0, 0.0, 0.0]]
    requires crs == [[0.0, 6.0, 0.0, 0.0], [0.0, 0.0, 4.0, 0.0], [0.0, 0.0, 0.0, 2.0]]
    ensures AllSized(srs, 4) && AllSized(crs, 4)
    ensures SumAll(srs, 1, 4) == [4.0, 0.0, 0.0, 0.0]
    ensures SumAll(crs, 3, 4) == [0.0, 6.0, 4.0, 2.0]
  {
    var z := Zeros(4);
    AddFour(z, srs[0], [4.0, 0.0, 0.0, 0.0]);
    AddFour(z, crs[0], [0.0, 6.0, 0.0, 0.0]);
    AddFour([0.0, 6.0, 0.0, 0.0], crs[1], [0.0, 6.0, 4.0, 0.0]);
    AddFour([0.0, 6.0, 4.0, 0.0], crs[2], [0.0, 6.0, 4.0, 2.0]);
    assert SumAll(crs, 1, 4) == [0.0, 6.0, 0.0, 0.0];
    assert SumAll(crs, 2, 4) == [0.0, 6.0, 4.0, 0.0];
  }

  /** Every calculation of the example is atom-atom: the atom-atom
      component holds the counts and the other two are empty. */
  lemma ExampleComponents()
    ensures ComponentHist(ExampleBodies(), false, ExampleHist, 4, AA) == [4.0, 6.0, 4.0, 2.0]
    ensures ComponentHist(ExampleBodies(), false, ExampleHist, 4, WW) == Zeros(4)
    ensures ComponentHist(ExampleBodies(), false, ExampleHist, 4, AW) == Zeros(4)
  {
    var bodies := ExampleBodies();
    ExampleCrossJobs();
    ExampleSelfScaled();
    ExampleCrossScaled();
    var sj, cj := SelfJobs(bodies, false), CrossJobs(bodies, false, 1);
    var srs, crs := Scaled(sj, ExampleHist), Scaled(cj, ExampleHist);
    ExampleSums(srs, crs);
    assert Tasks(sj)[0].tag == SelfAA by {
      assert PerBody(false) * |bodies| == 1;
    }
    assert forall k :: 0 <= k < 3 ==> Tasks(cj)[k].tag == SelfSymAA;
    AllAtomAtom(srs, Tasks(sj), 1, 4);
    AllAtomAtom(crs, Tasks(cj), 3, 4);
    var z := Zeros(4);
    AddFour([4.0, 0.0, 0.0, 0.0], [0.0, 6.0, 4.0, 2.0], [4.0, 6.0, 4.0, 2.0]);
    AddFour(z, z, z);
  }

  /** A histogram shorter than ten bins is padded to ten. */
  lemma TruncatedShort(h: Hist)
    requires |h| <= 10
    ensures Truncated(h) == h + Zeros(10 - |h|)
  {
  }

  lemma ExampleUntruncated()
    ensures Total(ExampleBodies(), false, ExampleHist, 4) == [4.0, 6.0, 4.0, 2.0]
  {
    ExampleComponents();
    var t4, z := [4.0, 6.0, 4.0, 2.0], Zeros(4);
    AddFour(t4, z, t4);
  }

  /** The repository's own expectation for this body: counts 4, 6, 4, 2 at
      distances 0 to 3, that is the body and its three copies each with
      itself, three neighbouring pairs, two pairs two apart and one pair
      three apart, both orderings counted; truncation pads to ten bins. */
  lemma ExampleTotal()
    ensures Truncated(Total(ExampleBodies(), false, ExampleHist, 4))
            == [4.0, 6.0, 4.0, 2.0, 0.0, 0.0, 0.0, 0.0, 0.0, 0.0]
  {
    ExampleUntruncated();
    TruncatedShort([4.0, 6.0, 4.0, 2.0]);
    assert Zeros(6) == [0.0, 0.0, 0.0, 0.0, 0.0, 0.0];
  }
}
