/** Per-thread debug information: a persistent, kind-tagged stack of frames.
    Frames are immutable values that share their tails; the only thing that
    changes is which frame a thread designates as its current top. */
module ThreadLocalDebugInfo {

  /** The five kinds of debug information, with their one-byte codes 0..4. */
  datatype Kind = ProducerInfo | MobileRuntimeInfo | ProfilerState | TestInfo | TestInfo2

  /** The kinds in declaration order: the enum numbers them from 0 in this order. */
  const Declared: seq<Kind> := [ProducerInfo, MobileRuntimeInfo, ProfilerState, TestInfo, TestInfo2]

  datatype Option<T> = None | Some(value: T)

  /** The one way a pop can fail: the last pushed frame is not of the requested
      kind (which includes the case where nothing has been pushed). */
  datatype PopError = MismatchedKind

  datatype Result<T> = Ok(value: T) | Err(error: PopError)

  /** The underlying code of a kind (the enum is stored in one byte, counting from 0). */
  function Code(k: Kind): (c: nat)
    ensures c < |Declared| && Declared[c] == k
  {
    match k
    case ProducerInfo => 0
    case MobileRuntimeInfo => 1
    case ProfilerState => 2
    case TestInfo => 3
    case TestInfo2 => 4
  }

  /** The kind with a given code, if there is one. */
  function FromCode(c: nat): (r: Option<Kind>)
    ensures r.Some? <==> c < |Declared|
    ensures r.Some? ==> r.value == Declared[c] && Code(r.value) == c
  {
    if c == 0 then Some(ProducerInfo)
    else if c == 1 then Some(MobileRuntimeInfo)
    else if c == 2 then Some(ProfilerState)
    else if c == 3 then Some(TestInfo)
    else if c == 4 then Some(TestInfo2)
    else None
  }

  /** Distinct kinds have distinct codes, and every kind is recovered from its code. */
  lemma CodeRoundTrip(k: Kind)
    ensures FromCode(Code(k)) == Some(k)
  {
  }

  /** One node of the stack: a payload, its kind and the frame beneath it.
      `Empty` is the null pointer: the bottom of every stack. */
  datatype Frame<P> = Empty | Node(payload: P, kind: Kind, parent: Frame<P>)

  /** A (kind, payload) pair, as seen when reading a stack from the top. */
  datatype Entry<P> = Entry(kind: Kind, payload: P)

  /** The frames reachable from `f` through `parent`, top first. */
  function Entries<P>(f: Frame<P>): (es: seq<Entry<P>>)
  {
    match f
    case Empty => []
    case Node(p, k, parent) => [Entry(k, p)] + Entries(parent)
  }

  /** `p` is the payload of the first entry of kind `k` in `es`. */
  ghost predicate NearestOfKind<P>(es: seq<Entry<P>>, k: Kind, p: P)
  {
    exists i :: 0 <= i < |es| && es[i] == Entry(k, p) && forall j :: 0 <= j < i ==> es[j].kind != k
  }

  /** `get(kind)`: walks from `f` towards the bottom and returns the payload of
      the first frame of that kind, or nothing. */
  function Lookup<P>(f: Frame<P>, kind: Kind): (r: Option<P>)
    ensures r.Some? ==> Entry(kind, r.value) in Entries(f)
  {
    match f
    case Empty => None
    case Node(p, k, parent) => if k == kind then Some(p) else Lookup(parent, kind)
  }

  /** Reading one more entry in front of `tail`: it is the nearest of its kind. */
  lemma NearestOfKindCons<P>(e: Entry<P>, tail: seq<Entry<P>>, kind: Kind, p: P)
    ensures NearestOfKind([e] + tail, kind, p) <==>
            if e.kind == kind then e.payload == p else NearestOfKind(tail, kind, p)
  {
    var es := [e] + tail;
    if NearestOfKind(es, kind, p) {
      var i :| 0 <= i < |es| && es[i] == Entry(kind, p) && forall j :: 0 <= j < i ==> es[j].kind != kind;
      if e.kind == kind {
        assert es[0].kind == kind;
        assert i == 0;
      } else {
        assert i > 0;
        assert tail[i - 1] == Entry(kind, p);
        forall j | 0 <= j < i - 1 ensures tail[j].kind != kind {
          assert tail[j] == es[j + 1];
        }
      }
    }
    if e.kind == kind && e.payload == p {
      assert es[0] == Entry(kind, p);
    }
    if e.kind != kind && NearestOfKind(tail, kind, p) {
      var i :| 0 <= i < |tail| && tail[i] == Entry(kind, p) && forall j :: 0 <= j < i ==> tail[j].kind != kind;
      assert es[i + 1] == Entry(kind, p);
      forall j | 0 <= j < i + 1 ensures es[j].kind != kind {
        if j > 0 { assert es[j] == tail[j - 1]; }
      }
    }
  }

  /** Lookup returns exactly the payload of the innermost frame of the kind. */
  lemma {:induction false} LookupIsNearest<P>(f: Frame<P>, kind: Kind, p: P)
    ensures Lookup(f, kind) == Some(p) <==> NearestOfKind(Entries(f), kind, p)
  {
    match f
    case Empty =>
    case Node(q, k, parent) =>
      NearestOfKindCons(Entry(k, q), Entries(parent), kind, p);
      if k != kind {
        LookupIsNearest(parent, kind, p);
      }
  }

  /** No entry of `es` has kind `k`. */
  ghost predicate NoneOfKind<P>(es: seq<Entry<P>>, k: Kind)
  {
    forall i :: 0 <= i < |es| ==> es[i].kind != k
  }

  /** Reading one more entry in front of `tail`: no entry of the kind is left
      exactly when the new one is of another kind and none in `tail` is. */
  lemma NoneOfKindCons<P>(e: Entry<P>, tail: seq<Entry<P>>, kind: Kind)
    ensures NoneOfKind([e] + tail, kind) <==> e.kind != kind && NoneOfKind(tail, kind)
  {
    var es := [e] + tail;
    assert es[0] == e;
    if e.kind != kind && NoneOfKind(tail, kind) {
      forall i | 0 <= i < |es| ensures es[i].kind != kind {
        if i > 0 { assert es[i] == tail[i - 1]; }
      }
    }
    if NoneOfKind(es, kind) {
      forall i | 0 <= i < |tail| ensures tail[i].kind != kind {
        assert tail[i] == es[i + 1];
      }
    }
  }

  /** Lookup finds nothing exactly when no frame on the stack has the kind;
      in particular on the empty stack. */
  lemma {:induction false} LookupAbsent<P>(f: Frame<P>, kind: Kind)
    ensures Lookup(f, kind) == None <==> NoneOfKind(Entries(f), kind)
  {
    match f
    case Empty =>
    case Node(q, k, parent) =>
      NoneOfKindCons(Entry(k, q), Entries(parent), kind);
      LookupAbsent(parent, kind);
  }

  /** `_push(kind, info)`: a new frame on top of `f`; the frames of `f` stay as they were. */
  function PushFrame<P>(f: Frame<P>, kind: Kind, info: P): (r: Frame<P>)
    ensures Entries(r) == [Entry(kind, info)] + Entries(f)
    ensures Lookup(r, kind) == Some(info)
    ensures forall k :: k != kind ==> Lookup(r, k) == Lookup(f, k)
  {
    Node(info, kind, f)
  }

  /** What a successful pop yields: the removed payload and the new top. */
  datatype Popped<P> = Popped(payload: P, rest: Frame<P>)

  /** `_pop(kind)`: fails unless the top frame exists and has the requested kind;
      otherwise it undoes exactly one push. */
  function PopFrame<P>(f: Frame<P>, kind: Kind): (r: Result<Popped<P>>)
    ensures r.Ok? <==> f.Node? && f.kind == kind
    ensures r.Ok? ==> PushFrame(r.value.rest, kind, r.value.payload) == f
  {
    if f.Node? && f.kind == kind then Ok(Popped(f.payload, f.parent)) else Err(MismatchedKind)
  }

  /** A push followed by a pop of the same kind returns the payload and the
      stack exactly as it was before the push. */
  lemma PushPopRoundTrip<P>(f: Frame<P>, kind: Kind, info: P)
    ensures PopFrame(PushFrame(f, kind, info), kind) == Ok(Popped(info, f))
  {
  }

  /** Pushing the same kind twice shadows the first payload; one pop uncovers it again. */
  lemma Shadowing<P>(f: Frame<P>, kind: Kind, p1: P, p2: P)
    ensures Lookup(PushFrame(PushFrame(f, kind, p1), kind, p2), kind) == Some(p2)
    ensures PopFrame(PushFrame(PushFrame(f, kind, p1), kind, p2), kind).Ok?
    ensures Lookup(PopFrame(PushFrame(PushFrame(f, kind, p1), kind, p2), kind).value.rest, kind) == Some(p1)
  {
  }

  /** The stack reached by pushing `items` on `f` in order (the last item is the top). */
  function PushAll<P>(f: Frame<P>, items: seq<Entry<P>>): (r: Frame<P>)
    decreases |items|
  {
    if items == [] then f
    else
      var last := items[|items| - 1];
      PushFrame(PushAll(f, items[..|items| - 1]), last.kind, last.payload)
  }

  /** The kinds of `items`, newest first: the order in which they must be popped. */
  function KindsNewestFirst<P>(items: seq<Entry<P>>): (kinds: seq<Kind>)
    decreases |items|
  {
    if items == [] then [] else [items[|items| - 1].kind] + KindsNewestFirst(items[..|items| - 1])
  }

  /** Pops the given kinds in order, failing at the first mismatch. */
  function PopAll<P>(f: Frame<P>, kinds: seq<Kind>): (r: Result<Frame<P>>)
    decreases |kinds|
  {
    if kinds == [] then Ok(f)
    else
      match PopFrame(f, kinds[0])
      case Err(e) => Err(e)
      case Ok(popped) => PopAll(popped.rest, kinds[1..])
  }

  /** While nested pushes are in effect, lookup of a kind yields the payload
      of the most recently pushed item of that kind. */
  lemma {:induction false} NestedLookupInnermost<P>(f: Frame<P>, items: seq<Entry<P>>, i: nat)
    requires i < |items|
    requires forall j :: i < j < |items| ==> items[j].kind != items[i].kind
    ensures Lookup(PushAll(f, items), items[i].kind) == Some(items[i].payload)
    decreases |items|
  {
    var n := |items|;
    if i < n - 1 {
      var init := items[..n - 1];
      assert forall j :: i < j < |init| ==> init[j].kind != init[i].kind by {
        forall j | i < j < |init| ensures init[j].kind != init[i].kind {
          assert init[j] == items[j];
        }
      }
      NestedLookupInnermost(f, init, i);
      assert items[n - 1].kind != items[i].kind;
    }
  }

  /** Nested pushes of other kinds leave the lookup of a kind as it was. */
  lemma {:induction false} NestedLookupOuter<P>(f: Frame<P>, items: seq<Entry<P>>, kind: Kind)
    requires forall j :: 0 <= j < |items| ==> items[j].kind != kind
    ensures Lookup(PushAll(f, items), kind) == Lookup(f, kind)
    decreases |items|
  {
    var n := |items|;
    if n > 0 {
      var init := items[..n - 1];
      assert forall j :: 0 <= j < |init| ==> init[j].kind != kind by {
        forall j | 0 <= j < |init| ensures init[j].kind != kind {
          assert init[j] == items[j];
        }
      }
      NestedLookupOuter(f, init, kind);
      assert items[n - 1].kind != kind;
    }
  }

  /** Popping nested pushes in LIFO order succeeds and gives back the stack
      exactly as it was before the first push. */
  lemma {:induction false} UnwindRestores<P>(f: Frame<P>, items: seq<Entry<P>>)
    ensures PopAll(PushAll(f, items), KindsNewestFirst(items)) == Ok(f)
    decreases |items|
  {
    if items != [] {
      var n := |items|;
      var init := items[..n - 1];
      var kinds := KindsNewestFirst(items);
      assert kinds[0] == items[n - 1].kind && kinds[1..] == KindsNewestFirst(init);
      PushPopRoundTrip(PushAll(f, init), items[n - 1].kind, items[n - 1].payload);
      UnwindRestores(f, init);
    }
  }

  /** The current-top pointer of one thread. Every operation of the thread's
      debug information reads or overwrites this one field. */
  class DebugContext<P> {
    var top: Frame<P>

    /** A thread starts with no debug information (the thread-local pointer
        starts out null; this initial value is an assumption of the model). */
    constructor ()
      ensures top == Empty
    {
      top := Empty;
    }

    /** `current()`: the current top itself, shared, not copied; so the
        snapshot answers `get` for every kind exactly as the thread does. */
    function Current(): (r: Frame<P>)
      reads this
      ensures r == top
      ensures forall k :: Lookup(r, k) == Get(k)
    {
      top
    }

    /** `get(kind)`: the payload of the innermost frame of the kind, or
        nothing when no frame on the stack has that kind. */
    function Get(kind: Kind): (r: Option<P>)
      reads this
      ensures r.None? <==> NoneOfKind(Entries(top), kind)
      ensures r.Some? ==> NearestOfKind(Entries(top), kind, r.value)
    {
      LookupAbsent(top, kind);
      var found := Lookup(top, kind);
      if found.Some? then LookupIsNearest(top, kind, found.value); found else found
    }

    /** `_forceCurrentDebugInfo(info)`: installs a snapshot as the current top. */
    method ForceCurrentDebugInfo(info: Frame<P>)
      modifies this
      ensures top == info
    {
      top := info;
    }

    /** `_push(kind, info)`. */
    method Push(kind: Kind, info: P)
      modifies this
      ensures top == PushFrame(old(top), kind, info)
    {
      top := PushFrame(top, kind, info);
    }

    /** `_pop(kind)`: on a kind mismatch (or an empty stack) it fails and the
        current top stays as it was. */
    method Pop(kind: Kind) returns (r: Result<P>)
      modifies this
      ensures r.Ok? <==> old(top).Node? && old(top).kind == kind
      ensures r.Ok? ==> r.value == old(top).payload && top == old(top).parent
      ensures r.Err? ==> r.error == MismatchedKind && top == old(top)
    {
      match PopFrame(top, kind)
      case Err(e) =>
        r := Err(e);
      case Ok(popped) =>
        top := popped.rest;
        r := Ok(popped.payload);
    }
  }
}
