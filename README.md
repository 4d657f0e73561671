# Thread-local debug information, modelled in Dafny

This project models the core of c10's `ThreadLocalDebugInfo` (PyTorch): a
per-thread stack of debug-information frames, each tagged with a
`DebugInfoKind`, and the scope guard `DebugInfoGuard` that sets debug
information for the lifetime of a scope.

- `thread_local_debug_info.dfy`, module `ThreadLocalDebugInfo`: the five-value
  `Kind` enum and its one-byte codes; the immutable frame chain
  `Frame<P> = Empty | Node(payload, kind, parent)` (the payload type `P` is
  opaque); the pure operations `Lookup` (`get`), `PushFrame` (`_push`) and
  `PopFrame` (`_pop`, failing with `MismatchedKind`); and the lemmas about them
  (innermost-wins lookup, absence, push/pop round trip, shadowing, nested pushes
  and their LIFO unwinding). The class `DebugContext` holds one thread's
  current-top pointer `top`. Its methods `Push`, `Pop` and
  `ForceCurrentDebugInfo` overwrite it, and `Current` and `Get` read it.
- `debug_info_guard.dfy`, module `DebugInfoGuard`: the class `Guard` with the
  fields `active` and `prevInfo`. It has two constructors: `WithInfo` pushes
  one frame and `WithSnapshot` installs a whole snapshot. Its destructor is
  `Destroy`. A ghost `restored` flag gives the life cycle
  inactive → active → restored. The module also holds the usage patterns the
  header's comments describe: a guarded lookup, nested overriding, arbitrarily
  deep LIFO nesting, snapshot reinstatement and hand-off of a snapshot to
  another thread.

Frames are values, so "existing frames are never modified" holds by
construction. Only `DebugContext.top` changes, and only through the methods
named above.

## Model

| member | source | states |
|---|---|---|
| `ThreadLocalDebugInfo.Code` | c10/util/ThreadLocalDebugInfo.h:12-19 | a kind's code is its position in the declaration order, counting from `PRODUCER_INFO = 0`: `MOBILE_RUNTIME_INFO` 1, `PROFILER_STATE` 2, `TEST_INFO` 3, `TEST_INFO_2` 4 |
| `ThreadLocalDebugInfo.FromCode` | c10/util/ThreadLocalDebugInfo.h:12-19 | a code names a kind exactly when it is below 5; the kind it names is the one declared at that position, and its code is the given one |
| `ThreadLocalDebugInfo.CodeRoundTrip` | c10/util/ThreadLocalDebugInfo.h:12-19 | every kind is recovered from its code, so the five codes are distinct |
| `ThreadLocalDebugInfo.Lookup` | c10/util/ThreadLocalDebugInfo.h:35 | the walk behind `get`: whatever it returns is the payload of a frame of the requested kind on the stack |
| `ThreadLocalDebugInfo.LookupIsNearest` | c10/util/ThreadLocalDebugInfo.h:35 | `get(kind)` returns `p` exactly when `p` is the payload of the first frame of that kind reached from the top through the parent links |
| `ThreadLocalDebugInfo.LookupAbsent` | c10/util/ThreadLocalDebugInfo.h:35 | `get(kind)` returns nothing exactly when no frame on the stack has that kind, the empty stack included |
| `ThreadLocalDebugInfo.PushFrame` | c10/util/ThreadLocalDebugInfo.h:44-45 | a push puts one new entry in front of the old frames, which stay unchanged; `get` of the pushed kind returns the new payload, and `get` of every other kind is unchanged |
| `ThreadLocalDebugInfo.PopFrame` | c10/util/ThreadLocalDebugInfo.h:46-48 | a pop succeeds exactly when the top frame exists and has the requested kind; a successful pop is undone by pushing the popped payload back on the remaining stack |
| `ThreadLocalDebugInfo.PushPopRoundTrip` | c10/util/ThreadLocalDebugInfo.h:44-48 | pushing `(k, p)` and then popping `k` succeeds, returns `p` and gives back the stack as it was before the push |
| `ThreadLocalDebugInfo.Shadowing` | c10/util/ThreadLocalDebugInfo.h:61-62 | after pushing `p1` and then `p2` with the same kind, `get` returns `p2`, and after one pop it returns `p1` |
| `ThreadLocalDebugInfo.NestedLookupInnermost` | c10/util/ThreadLocalDebugInfo.h:61-63 | after a sequence of nested pushes, `get(k)` returns the payload of the last pushed item of kind `k` |
| `ThreadLocalDebugInfo.NestedLookupOuter` | c10/util/ThreadLocalDebugInfo.h:61-63 | nested pushes of other kinds leave `get(k)` as it was before them |
| `ThreadLocalDebugInfo.UnwindRestores` | c10/util/ThreadLocalDebugInfo.h:46-48 | popping a sequence of nested pushes in reverse order never fails and gives back exactly the stack from before the first push |
| `ThreadLocalDebugInfo.DebugContext.constructor` | c10/util/ThreadLocalDebugInfo.h:33 | a thread's current top starts empty; the header does not state the initial value, so this is a modelling assumption (a null pointer) |
| `ThreadLocalDebugInfo.DebugContext.Current` | c10/util/ThreadLocalDebugInfo.h:37-38 | `current()` returns the current top itself, not a copy, so the snapshot answers `get` for every kind exactly as the thread does |
| `ThreadLocalDebugInfo.DebugContext.Get` | c10/util/ThreadLocalDebugInfo.h:35 | `get(kind)` returns nothing exactly when no frame on the thread's stack has the kind, and otherwise the payload of the nearest frame of that kind |
| `ThreadLocalDebugInfo.DebugContext.ForceCurrentDebugInfo` | c10/util/ThreadLocalDebugInfo.h:40-42 | `_forceCurrentDebugInfo` makes the given snapshot the current top, unconditionally |
| `ThreadLocalDebugInfo.DebugContext.Push` | c10/util/ThreadLocalDebugInfo.h:44-45 | `_push` makes a new frame of the given kind and payload the current top, with the previous top as its parent |
| `ThreadLocalDebugInfo.DebugContext.Pop` | c10/util/ThreadLocalDebugInfo.h:46-48 | `_pop(kind)` fails with `MismatchedKind` and leaves the top unchanged when the last pushed frame is missing or of another kind; otherwise it returns that frame's payload and makes its parent the top |
| `DebugInfoGuard.Guard.WithInfo` | c10/util/ThreadLocalDebugInfo.h:66-67 | the payload guard saves the previous top in `prevInfo`, pushes one frame and ends active |
| `DebugInfoGuard.Guard.WithSnapshot` | c10/util/ThreadLocalDebugInfo.h:69-70 | the snapshot guard saves the previous top in `prevInfo`, makes the given snapshot the current top and ends active |
| `DebugInfoGuard.Guard.Destroy` | c10/util/ThreadLocalDebugInfo.h:72-79 | destruction runs at most once per guard (no copy or move); an active guard reinstates the saved top verbatim and an inactive one leaves it alone |
| `DebugInfoGuard.GuardedLookup` | c10/util/ThreadLocalDebugInfo.h:58-63 | while a payload guard is active, `get` of its kind returns its payload; after destruction, `get` returns the pre-guard result for every kind |
| `DebugInfoGuard.NestedOverride` | c10/util/ThreadLocalDebugInfo.h:61-62 | a nested guard of the same kind overrides the outer value, and the outer value is back once the inner guard is destroyed |
| `DebugInfoGuard.NestedScopes` | c10/util/ThreadLocalDebugInfo.h:61-62 | nested payload guards built in order show the thread `PushAll(top, items)` inside the innermost scope; destroyed in LIFO order, they leave the top exactly as it was before the outermost guard |
| `DebugInfoGuard.SnapshotRestore` | c10/util/ThreadLocalDebugInfo.h:69-70 | installing a snapshot captured earlier makes the thread see exactly that stack again, and the guard's destruction reinstates what came after |
| `DebugInfoGuard.CrossThreadHandoff` | c10/util/ThreadLocalDebugInfo.h:37-42 | a snapshot captured in thread `a` and installed in thread `b` shows `a`'s payload in `b`; `b`'s own override is not visible in `a`, and both threads end as they started |

## Left out

- ThreadLocalDebugInfo.DebugContext.constructor: the header does not declare the thread-local pointer or its initial value; the model assumes it starts null (an empty stack).
- Thread-local storage and concurrency: each thread's current pointer is one `DebugContext` object, and a second thread is a second, distinct object.
- `std::shared_ptr` ownership and reference counts: frames are immutable Dafny values that share their tails, and nothing is freed.
- The `DebugInfoBase` class hierarchy (c10/util/ThreadLocalDebugInfo.h:21-25): the payload is an opaque type parameter `P`.
- The C++ exception thrown by `_pop`: it is the `Err(MismatchedKind)` result, and the stack is left unchanged.
- Null payloads and null snapshots: the header says nothing about them, so the model gives them no special handling. A guard is therefore always active once constructed. `Inactive` is only the state before its constructor has pushed.
- Guard.Destroy: it restores `prev_info_` in both guard modes, because the header keeps only `active_` and `prev_info_` and no kind to pop with. It therefore does not detect guards destroyed out of LIFO order; such a destruction silently reinstates its own saved top.
- `ThreadLocalStateGuard`, mentioned at c10/util/ThreadLocalDebugInfo.h:40, is not part of this model.
- Scope exit is the explicit `Destroy` call. The C++ runtime calls the destructor on every exit path, including exception unwinding; the model does not capture that.
